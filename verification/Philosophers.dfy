/** The dining-philosophers monitor of cw09/zad1: one mutex, one condition
    variable per philosopher, and orderly cancellation through cleanup handlers.

    Cancellation follows POSIX.1-2017, System Interfaces, section 2.9.5: a
    pending request is acted upon at cancellation points (here `usleep` and
    `pthread_cond_wait`), and a thread cancelled while waiting re-acquires the
    mutex before its cleanup handler runs. */
module Philosophers {
  import opened Mutexes
  import opened Sums

  datatype Mode = THINK | WAIT | EAT

  // ------------------------------------------------------------- the table

  function Left(n: nat, i: nat): nat
    requires 0 < n
  {
    (i + n - 1) % n
  }

  function Right(n: nat, i: nat): nat
    requires 0 < n
  {
    (i + 1) % n
  }

  lemma Wraps(n: nat, x: nat)
    requires 0 < n && x < 2 * n
    ensures x % n == if x < n then x else x - n
  {
    if n <= x {
      assert x / n == 1;
    }
  }

  lemma Neighbours(n: nat, i: nat)
    requires 2 <= n && i < n
    ensures Left(n, i) == (if i == 0 then n - 1 else i - 1)
    ensures Right(n, i) == (if i == n - 1 then 0 else i + 1)
    ensures Left(n, i) < n && Right(n, i) < n && Left(n, i) != i && Right(n, i) != i
    ensures Left(n, Right(n, i)) == i == Right(n, Left(n, i))
  {
    Wraps(n, i + n - 1);
    Wraps(n, i + 1);
    Wraps(n, Right(n, i) + n - 1);
    Wraps(n, Left(n, i) + 1);
  }

  /** The guard of `change_philo_state`. */
  predicate MayEat(st: seq<Mode>, i: nat)
    requires i < |st|
  {
    st[i] == WAIT && st[Left(|st|, i)] != EAT && st[Right(|st|, i)] != EAT
  }

  /** The effect of `change_philo_state` on the states. */
  function Promoted(st: seq<Mode>, i: nat): seq<Mode>
    requires i < |st|
  {
    if MayEat(st, i) then st[i := EAT] else st
  }

  predicate EatsBeside(st: seq<Mode>, i: nat)
    requires i < |st|
  {
    st[Left(|st|, i)] == EAT || st[Right(|st|, i)] == EAT
  }

  predicate NoNeighboursEat(st: seq<Mode>) {
    forall i :: 0 <= i < |st| && st[i] == EAT ==> !EatsBeside(st, i)
  }

  /** Nobody outside `excused` waits without an eating neighbour. */
  predicate MaximalExcept(st: seq<Mode>, excused: set<nat>) {
    forall i :: 0 <= i < |st| && st[i] == WAIT && i !in excused ==> EatsBeside(st, i)
  }

  /** The table as it is whenever the mutex is free. */
  predicate Settled(st: seq<Mode>) {
    NoNeighboursEat(st) && MaximalExcept(st, {})
  }

  lemma PromotionSettlesOne(st: seq<Mode>, i: nat, excused: set<nat>)
    requires 2 <= |st| && i < |st|
    requires NoNeighboursEat(st) && MaximalExcept(st, excused)
    ensures NoNeighboursEat(Promoted(st, i)) && MaximalExcept(Promoted(st, i), excused - {i})
  {
    var t := Promoted(st, i);
    forall j | 0 <= j < |t|
      ensures t[j] == EAT ==> !EatsBeside(t, j)
      ensures t[j] == WAIT && j !in excused - {i} ==> EatsBeside(t, j)
    {
      Neighbours(|st|, j);
      Neighbours(|st|, i);
    }
  }

  /** Putting the forks back can only disappoint the two neighbours. */
  lemma ThinkingDisturbsNeighbours(st: seq<Mode>, i: nat)
    requires 2 <= |st| && i < |st| && Settled(st)
    ensures NoNeighboursEat(st[i := THINK])
    ensures MaximalExcept(st[i := THINK], {Left(|st|, i), Right(|st|, i)})
  {
    var t := st[i := THINK];
    forall j | 0 <= j < |t|
      ensures t[j] == EAT ==> !EatsBeside(t, j)
      ensures t[j] == WAIT && j !in {Left(|st|, i), Right(|st|, i)} ==> EatsBeside(t, j)
    {
      Neighbours(|st|, j);
      Neighbours(|st|, i);
    }
  }

  /** Getting hungry disturbs nobody else. */
  lemma WaitingDisturbsNobody(st: seq<Mode>, i: nat)
    requires 2 <= |st| && i < |st| && Settled(st) && st[i] == THINK
    ensures NoNeighboursEat(st[i := WAIT]) && MaximalExcept(st[i := WAIT], {i})
  {
    var t := st[i := WAIT];
    forall j | 0 <= j < |t|
      ensures t[j] == EAT ==> !EatsBeside(t, j)
      ensures t[j] == WAIT && j != i ==> EatsBeside(t, j)
    {
      Neighbours(|st|, j);
    }
  }

  /** The shared array and the critical sections that update it in place. */
  class Table {
    const philoState: array<Mode>

    constructor (n: nat)
      ensures fresh(philoState) && philoState.Length == n
      ensures forall i :: 0 <= i < n ==> philoState[i] == THINK
      ensures Settled(philoState[..])
    {
      philoState := new Mode[n](_ => THINK);
    }

    /** Lines 19-24; the result tells whether `condition[i]` was signalled. */
    method ChangePhiloState(i: nat) returns (signalled: bool)
      requires i < philoState.Length
      modifies philoState
      ensures signalled == old(MayEat(philoState[..], i))
      ensures philoState[..] == old(Promoted(philoState[..], i))
    {
      var n := philoState.Length;
      signalled := philoState[i] == WAIT && philoState[(i + n - 1) % n] != EAT && philoState[(i + 1) % n] != EAT;
      if signalled {
        philoState[i] := EAT;
      }
    }

    /** Lines 33-34: on a settled table the philosopher eats at once or has an eating neighbour. */
    method GetHungry(i: nat) returns (signalled: bool)
      requires 2 <= philoState.Length && i < philoState.Length
      requires Settled(philoState[..]) && philoState[i] == THINK
      modifies philoState
      ensures Settled(philoState[..])
      ensures philoState[i] == if signalled then EAT else WAIT
      ensures signalled != EatsBeside(old(philoState[..]), i)
      ensures forall j :: 0 <= j < philoState.Length && j != i ==> philoState[j] == old(philoState[j])
    {
      ghost var before := philoState[..];
      philoState[i] := WAIT;
      assert philoState[..] == before[i := WAIT];
      WaitingDisturbsNobody(before, i);
      PromotionSettlesOne(philoState[..], i, {i});
      Neighbours(philoState.Length, i);
      signalled := ChangePhiloState(i);
      assert {i} - {i} == {};
    }

    /** Lines 43-45: the neighbours that can eat now are the ones promoted and signalled. */
    method PutForksBack(i: nat) returns (left: bool, right: bool)
      requires 2 <= philoState.Length && i < philoState.Length && Settled(philoState[..])
      modifies philoState
      ensures Settled(philoState[..])
      ensures philoState[i] == THINK
      ensures var n := philoState.Length; forall j :: 0 <= j < n && j != i ==>
        philoState[j] ==
          if (left && j == Left(n, i)) || (right && j == Right(n, i)) then EAT else old(philoState[j])
      ensures var n, st := philoState.Length, old(philoState[..]);
        var l, r := Left(n, i), Right(n, i);
        && left == (st[l] == WAIT && (Left(n, l) == i || st[Left(n, l)] != EAT))
        && right == (st[r] == WAIT && !(left && r == l) &&
             (Right(n, r) == i || (st[Right(n, r)] != EAT && !(left && Right(n, r) == l))))
    {
      ghost var before := philoState[..];
      ghost var n := philoState.Length;
      Neighbours(n, i);
      Neighbours(n, Left(n, i));
      Neighbours(n, Right(n, i));
      philoState[i] := THINK;
      assert philoState[..] == before[i := THINK];
      ThinkingDisturbsNeighbours(before, i);
      PromotionSettlesOne(philoState[..], Left(n, i), {Left(n, i), Right(n, i)});
      left := ChangePhiloState((i + philoState.Length - 1) % philoState.Length);
      ghost var rest := {Left(n, i), Right(n, i)} - {Left(n, i)};
      PromotionSettlesOne(philoState[..], Right(n, i), rest);
      right := ChangePhiloState((i + 1) % philoState.Length);
      assert rest - {Right(n, i)} == {};
    }
  }

  // ------------------------------------------------------------ quantities

  function EatW(m: Mode): int { One(m.EAT?) }
  function WaitW(m: Mode): int { One(m.WAIT?) }

  /** Along a path without eating neighbours, each edge carries at most one eater. */
  lemma {:induction false} PathEaters(s: seq<Mode>)
    requires 1 <= |s|
    requires forall i :: 0 <= i < |s| - 1 ==> EatW(s[i]) + EatW(s[i + 1]) <= 1
    ensures 2 * Sum(s, EatW) - EatW(s[0]) - EatW(s[|s| - 1]) <= |s| - 1
  {
    if |s| == 1 {
      assert Sum(s[1..], EatW) == 0;
    } else {
      assert EatW(s[0]) + EatW(s[0 + 1]) <= 1;
      forall i | 0 <= i < |s[1..]| - 1
        ensures EatW(s[1..][i]) + EatW(s[1..][i + 1]) <= 1
      {
        assert EatW(s[i + 1]) + EatW(s[i + 1 + 1]) <= 1;
      }
      PathEaters(s[1..]);
    }
  }

  /** Along a path, the inner waiters are paid for by the eaters on both sides. */
  lemma {:induction false} PathWaiters(s: seq<Mode>)
    requires 2 <= |s|
    requires forall i :: 0 < i < |s| - 1 ==> WaitW(s[i]) <= EatW(s[i - 1]) + EatW(s[i + 1])
    ensures Sum(s, WaitW) - WaitW(s[0]) - WaitW(s[|s| - 1]) <=
      2 * Sum(s, EatW) - EatW(s[0]) - EatW(s[1]) - EatW(s[|s| - 2]) - EatW(s[|s| - 1])
  {
    if |s| == 2 {
      var r := s[1..];
      assert Sum(r[1..], WaitW) == 0 && Sum(r[1..], EatW) == 0;
      assert Sum(r, WaitW) == WaitW(s[1]);
      assert Sum(r, EatW) == EatW(s[1]);
    } else {
      assert WaitW(s[1]) <= EatW(s[1 - 1]) + EatW(s[1 + 1]);
      var r := s[1..];
      forall i | 0 < i < |r| - 1
        ensures WaitW(r[i]) <= EatW(r[i - 1]) + EatW(r[i + 1])
      {
        assert WaitW(s[i + 1]) <= EatW(s[i + 1 - 1]) + EatW(s[i + 1 + 1]);
      }
      PathWaiters(r);
    }
  }

  /** Double counting on the ring. */
  lemma {:induction false} SettledQuantities(st: seq<Mode>)
    requires 2 <= |st| && Settled(st)
    ensures 2 * Sum(st, EatW) <= |st|
    ensures Sum(st, WaitW) <= 2 * Sum(st, EatW)
  {
    var n := |st|;
    forall i | 0 <= i < n
      ensures i < n - 1 ==> EatW(st[i]) + EatW(st[i + 1]) <= 1
      ensures 0 < i < n - 1 ==> WaitW(st[i]) <= EatW(st[i - 1]) + EatW(st[i + 1])
    {
      Neighbours(n, i);
    }
    PathEaters(st);
    PathWaiters(st);
    Neighbours(n, 0);
    Neighbours(n, n - 1);
  }

  // --------------------------------------------------------------- monitor

  datatype PC =
    | Thinking | UseLock | UseSet | UseTry | UseSignal | UseCheck | UseWait | Asleep | Woken | UseLeave
    | Eating | PutLock | PutSet | PutLeft | PutLeftSignal | PutRight | PutRightSignal | PutLeave
    | CancelLock | Cleanup | Dead

  datatype Instruction =
    | Pause(next: PC)
    | Acquire(next: PC)
    | Release(next: PC)
    | SetMode(m: Mode, next: PC)
    | Try(j: nat, promoted: PC, otherwise: PC)
    | Signal(j: nat, next: PC)
    | Check(waiting: PC, done: PC)
    | Sleep(asleep: PC)
    | Stopped

  /** The program of philosopher `i`; the comments give the source lines. `change_philo_state(j)`
      is a `Try` (lines 20-21) followed by a `Signal` (line 22) when it promotes. */
  function Code(n: nat, i: nat, pc: PC): Instruction
    requires 0 < n
  {
    match pc
    case Thinking => Pause(UseLock)                            // 52
    case UseLock => Acquire(UseSet)                            // 31
    case UseSet => SetMode(WAIT, UseTry)                       // 33
    case UseTry => Try(i, UseSignal, UseCheck)                 // 34
    case UseSignal => Signal(i, UseCheck)                      // 34
    case UseCheck => Check(UseWait, UseLeave)                  // 35
    case UseWait => Sleep(Asleep)                              // 36
    case Asleep => Stopped                                     // 36
    case Woken => Acquire(UseCheck)                            // 36
    case UseLeave => Release(Eating)                           // 37
    case Eating => Pause(PutLock)                              // 54-55
    case PutLock => Acquire(PutSet)                            // 41
    case PutSet => SetMode(THINK, PutLeft)                     // 43
    case PutLeft => Try(Left(n, i), PutLeftSignal, PutRight)   // 44
    case PutLeftSignal => Signal(Left(n, i), PutRight)         // 44
    case PutRight => Try(Right(n, i), PutRightSignal, PutLeave) // 45
    case PutRightSignal => Signal(Right(n, i), PutLeave)       // 45
    case PutLeave => Release(Thinking)                         // 46
    case CancelLock => Acquire(Cleanup)                        // 36, cancelled while waiting
    case Cleanup => Release(Dead)                              // 26-28
    case Dead => Stopped
  }

  predicate OwnsMutex(pc: PC) {
    match pc
    case UseSet | UseTry | UseSignal | UseCheck | UseWait | UseLeave => true
    case PutSet | PutLeft | PutLeftSignal | PutRight | PutRightSignal | PutLeave | Cleanup => true
    case _ => false
  }

  datatype State = State(pc: seq<PC>, philo: seq<Mode>, owner: Owner, cancelled: seq<bool>) {
    predicate Shape(n: nat) {
      |pc| == |philo| == |cancelled| == n
    }

    function Goto(i: nat, next: PC): State
      requires i < |pc|
    {
      this.(pc := pc[i := next])
    }

    /** `pthread_cond_signal(&condition[j])`: only philosopher `j` ever waits there. */
    function Signalled(j: nat): State {
      if j < |pc| && pc[j] == Asleep then Goto(j, Woken) else this
    }
  }

  predicate Init(n: nat, s: State) {
    && s.Shape(n)
    && s.owner == Free
    && forall i :: 0 <= i < n ==> s.pc[i] == Thinking && s.philo[i] == THINK && !s.cancelled[i]
  }

  /** The cancellation points; `printf` at line 54 shares the place of the `usleep` after it. */
  predicate CancellationPoint(pc: PC) {
    pc.Thinking? || pc.Eating? || pc.UseWait?
  }

  /** Thread `i` can execute its next statement. */
  predicate Ready(n: nat, s: State, i: nat)
    requires 0 < n && s.Shape(n) && i < n
  {
    && !(CancellationPoint(s.pc[i]) && s.cancelled[i])
    && !Code(n, i, s.pc[i]).Stopped?
    && (Code(n, i, s.pc[i]).Acquire? ==> s.owner == Free)
  }

  /** The statement at the program counter. */
  function Exec(n: nat, s: State, i: nat): State
    requires 2 <= n && s.Shape(n) && i < n
  {
    Neighbours(n, i);
    match Code(n, i, s.pc[i])
    case Pause(next) => s.Goto(i, next)
    case Acquire(next) => s.(owner := By(i)).Goto(i, next)
    case Release(next) => s.(owner := Free).Goto(i, next)
    case SetMode(m, next) => s.(philo := s.philo[i := m]).Goto(i, next)
    case Try(j, promoted, otherwise) =>
      s.(philo := Promoted(s.philo, j)).Goto(i, if MayEat(s.philo, j) then promoted else otherwise)
    case Signal(j, next) => s.Signalled(j).Goto(i, next)
    case Check(waiting, done) => s.Goto(i, if s.philo[i] == WAIT then waiting else done)
    case Sleep(asleep) => s.(owner := Free).Goto(i, asleep)
    case Stopped => s
  }

  /** The thread is at a cancellation point with a request pending. */
  predicate MustDie(n: nat, s: State, i: nat)
    requires s.Shape(n) && i < n
  {
    s.cancelled[i] && (CancellationPoint(s.pc[i]) || s.pc[i].Asleep? || s.pc[i].Woken?)
  }

  /** Acting on the request: outside the monitor the thread just ends. */
  function Dying(n: nat, s: State, i: nat): State
    requires s.Shape(n) && i < n
  {
    match s.pc[i]
    case UseWait => s.Goto(i, Cleanup)
    case Asleep | Woken => s.Goto(i, CancelLock)
    case _ => s.Goto(i, Dead)
  }

  datatype Action = Run(i: nat) | SpuriousWake(i: nat) | Die(i: nat) | Cancel(i: nat)

  predicate Enabled(n: nat, s: State, act: Action)
    requires 0 < n
  {
    && s.Shape(n) && act.i < n
    && match act
       case Run(i) => Ready(n, s, i)
       case SpuriousWake(i) => s.pc[i] == Asleep
       case Die(i) => MustDie(n, s, i)
       case Cancel(i) => !s.cancelled[i]
  }

  function Next(n: nat, s: State, act: Action): State
    requires 2 <= n && Enabled(n, s, act)
  {
    match act
    case Run(i) => Exec(n, s, i)
    case SpuriousWake(i) => s.Goto(i, Woken)
    case Die(i) => Dying(n, s, i)
    case Cancel(i) => s.(cancelled := s.cancelled[i := true])
  }

  ghost predicate Execution(n: nat, states: seq<State>, acts: seq<Action>)
    requires 2 <= n
  {
    && |states| == |acts| + 1
    && forall k :: 0 <= k < |acts| ==> Enabled(n, states[k], acts[k]) && states[k + 1] == Next(n, states[k], acts[k])
  }

  // -------------------------------------------------------------- invariant

  predicate ModeOk(pc: PC, m: Mode) {
    match pc
    case Thinking | UseLock | UseSet => m == THINK
    case PutLeft | PutLeftSignal | PutRight | PutRightSignal | PutLeave => m == THINK
    case UseTry | UseWait => m == WAIT
    case UseCheck | Asleep | Woken | CancelLock | Cleanup => m != THINK
    case UseSignal | UseLeave | Eating | PutLock | PutSet => m == EAT
    case Dead => true
  }

  /** Philosophers that may wait beside two free forks until the thread at `pc` gets to them. */
  function ExcusedBy(n: nat, i: nat, pc: PC): set<nat>
    requires 0 < n
  {
    match pc
    case UseTry => {i}
    case PutLeft => {Left(n, i), Right(n, i)}
    case PutLeftSignal | PutRight => {Right(n, i)}
    case _ => {}
  }

  /** The mutex owner answers for the exceptions. */
  function Excused(n: nat, s: State): set<nat>
    requires 0 < n
  {
    if s.owner.By? && s.owner.thread < |s.pc| then ExcusedBy(n, s.owner.thread, s.pc[s.owner.thread]) else {}
  }

  /** The mutex owner is about to signal philosopher `j`. */
  predicate AboutToSignal(n: nat, s: State, j: nat)
    requires 0 < n
  {
    && s.owner.By? && s.owner.thread < |s.pc|
    && var code := Code(n, s.owner.thread, s.pc[s.owner.thread]); code.Signal? && code.j == j
  }

  predicate LockOk(n: nat, s: State, i: nat)
    requires s.Shape(n) && i < n
  {
    OwnsMutex(s.pc[i]) <==> s.owner == By(i)
  }

  /** An unsignalled sleeper still waits. */
  predicate SleeperOk(n: nat, s: State, i: nat)
    requires 0 < n && s.Shape(n) && i < n
  {
    s.pc[i] == Asleep && !AboutToSignal(n, s, i) ==> s.philo[i] == WAIT
  }

  predicate CancelOk(n: nat, s: State, i: nat)
    requires s.Shape(n) && i < n
  {
    s.pc[i].CancelLock? || s.pc[i].Cleanup? || s.pc[i].Dead? ==> s.cancelled[i]
  }

  /** What the invariant says of one thread. */
  predicate ThreadOk(n: nat, s: State, i: nat)
    requires 0 < n && s.Shape(n) && i < n
  {
    LockOk(n, s, i) && CancelOk(n, s, i) && ModeOk(s.pc[i], s.philo[i]) && SleeperOk(n, s, i)
  }

  predicate Inv(n: nat, s: State)
    requires 0 < n
  {
    && s.Shape(n)
    && (s.owner.By? ==> s.owner.thread < n)
    && (forall i :: 0 <= i < n ==> ThreadOk(n, s, i))
    && NoNeighboursEat(s.philo)
    && MaximalExcept(s.philo, Excused(n, s))
  }

  lemma InitInv(n: nat, s: State)
    requires 0 < n && Init(n, s)
    ensures Inv(n, s)
  {
  }

  predicate Ending(pc: PC) {
    pc.CancelLock? || pc.Cleanup? || pc.Dead?
  }

  /** Which statements take and give back the mutex, and where the code of a cancelled thread starts. */
  lemma CodeLocks(n: nat, i: nat, pc: PC)
    requires 0 < n
    ensures match Code(n, i, pc)
      case Pause(next) => !OwnsMutex(pc) && !OwnsMutex(next) && !Ending(next)
      case Acquire(next) => !OwnsMutex(pc) && OwnsMutex(next) && (Ending(next) ==> Ending(pc))
      case Release(next) => OwnsMutex(pc) && !OwnsMutex(next) && (Ending(next) ==> Ending(pc))
      case SetMode(_, next) => OwnsMutex(pc) && OwnsMutex(next) && !Ending(next)
      case Try(_, promoted, otherwise) =>
        OwnsMutex(pc) && OwnsMutex(promoted) && OwnsMutex(otherwise) && !Ending(promoted) && !Ending(otherwise)
      case Signal(_, next) => OwnsMutex(pc) && OwnsMutex(next) && !Ending(next)
      case Check(waiting, done) =>
        OwnsMutex(pc) && OwnsMutex(waiting) && OwnsMutex(done) && !Ending(waiting) && !Ending(done)
      case Sleep(asleep) => OwnsMutex(pc) && !OwnsMutex(asleep) && !Ending(asleep)
      case Stopped => !OwnsMutex(pc)
  {
  }

  /** What an action does to the acting thread. */
  lemma StepSelf(n: nat, s: State, act: Action, t: State)
    requires 2 <= n && Enabled(n, s, act) && t == Next(n, s, act)
    requires LockOk(n, s, act.i) && ModeOk(s.pc[act.i], s.philo[act.i]) && CancelOk(n, s, act.i)
    ensures t.Shape(n)
    ensures LockOk(n, t, act.i) && CancelOk(n, t, act.i)
  {
    CodeLocks(n, act.i, s.pc[act.i]);
  }

  lemma StepSelfMode(n: nat, s: State, act: Action, t: State)
    requires 2 <= n && Enabled(n, s, act) && t == Next(n, s, act) && t.Shape(n)
    requires ModeOk(s.pc[act.i], s.philo[act.i])
    ensures ModeOk(t.pc[act.i], t.philo[act.i])
    ensures t.pc[act.i] == Asleep ==> t.philo[act.i] == WAIT || s.pc[act.i] == Asleep
  {
    var i := act.i;
    Neighbours(n, i);
    if act.Run? {
      var code := Code(n, i, s.pc[i]);
      if code.Try? {
        assert t.philo[i] == if code.j == i && MayEat(s.philo, i) then EAT else s.philo[i];
      }
    }
  }

  /** What an action does to everybody else: it may promote them, and then it signals them. */
  lemma StepOther(n: nat, s: State, act: Action, t: State, j: nat)
    requires 2 <= n && Enabled(n, s, act) && t == Next(n, s, act) && t.Shape(n)
    requires j < n && j != act.i && LockOk(n, s, act.i) && (s.owner == By(j) ==> OwnsMutex(s.pc[j]))
    ensures t.cancelled[j] == s.cancelled[j]
    ensures t.pc[j] == s.pc[j] || (s.pc[j] == Asleep && t.pc[j] == Woken)
    ensures t.philo[j] == s.philo[j] || (s.philo[j] == WAIT && t.philo[j] == EAT && AboutToSignal(n, t, j))
    ensures t.philo[j] != s.philo[j] ==> s.owner == By(act.i)
    ensures t.owner == By(j) <==> s.owner == By(j)
  {
    Neighbours(n, act.i);
  }

  /** A pending signal is delivered before the owner forgets about it. */
  lemma StepSignal(n: nat, s: State, act: Action, t: State, j: nat)
    requires 2 <= n && Enabled(n, s, act) && t == Next(n, s, act)
    requires s.owner.By? && s.owner.thread < n && LockOk(n, s, s.owner.thread) && LockOk(n, s, act.i)
    requires j < n && j != act.i && AboutToSignal(n, s, j) && s.pc[j] == Asleep
    ensures t.pc[j] == Woken || AboutToSignal(n, t, j)
  {
    if act.i == s.owner.thread {
      assert Code(n, act.i, s.pc[act.i]).Signal?;
    } else {
      assert t.pc[s.owner.thread] == s.pc[s.owner.thread] && t.owner == s.owner;
    }
  }

  /** Every other thread keeps its part of the invariant. */
  lemma StepThread(n: nat, s: State, act: Action, t: State, j: nat)
    requires 2 <= n && Enabled(n, s, act) && t == Next(n, s, act) && t.Shape(n)
    requires j < n && j != act.i && LockOk(n, s, act.i)
    requires s.owner.By? ==> s.owner.thread < n && LockOk(n, s, s.owner.thread)
    requires ThreadOk(n, s, j)
    ensures ThreadOk(n, t, j)
  {
    StepOther(n, s, act, t, j);
    if AboutToSignal(n, s, j) && s.pc[j] == Asleep {
      StepSignal(n, s, act, t, j);
    }
  }

  /** And so does the acting thread. */
  lemma StepOwn(n: nat, s: State, act: Action, t: State)
    requires 2 <= n && Enabled(n, s, act) && t == Next(n, s, act)
    requires ThreadOk(n, s, act.i) && (s.owner.By? ==> s.owner.thread < n)
    ensures t.Shape(n) && (t.owner.By? ==> t.owner.thread < n) && ThreadOk(n, t, act.i)
  {
    StepSelf(n, s, act, t);
    StepSelfMode(n, s, act, t);
  }

  lemma StepThreads(n: nat, s: State, act: Action, t: State)
    requires 2 <= n && Inv(n, s) && Enabled(n, s, act) && t == Next(n, s, act)
    ensures t.Shape(n) && (t.owner.By? ==> t.owner.thread < n)
    ensures forall j :: 0 <= j < n ==> ThreadOk(n, t, j)
  {
    assert forall j :: 0 <= j < n ==> ThreadOk(n, s, j);
    StepOwn(n, s, act, t);
    forall j | 0 <= j < n && j != act.i
      ensures ThreadOk(n, t, j)
    {
      assert ThreadOk(n, s, j) && ThreadOk(n, s, act.i);
      assert s.owner.By? ==> ThreadOk(n, s, s.owner.thread);
      StepThread(n, s, act, t, j);
    }
  }

  /** The exceptions change only with the table. */
  lemma CodeExcused(n: nat, i: nat, pc: PC)
    requires 0 < n
    ensures match Code(n, i, pc)
      case Pause(next) => ExcusedBy(n, i, pc) == ExcusedBy(n, i, next)
      case Acquire(next) => ExcusedBy(n, i, pc) == ExcusedBy(n, i, next)
      case Release(next) => ExcusedBy(n, i, pc) == ExcusedBy(n, i, next)
      case Signal(_, next) => ExcusedBy(n, i, pc) == ExcusedBy(n, i, next)
      case Check(waiting, done) => ExcusedBy(n, i, pc) == ExcusedBy(n, i, waiting) == ExcusedBy(n, i, done)
      case SetMode(m, next) =>
        ExcusedBy(n, i, pc) == {} && ExcusedBy(n, i, next) == if m == WAIT then {i} else {Left(n, i), Right(n, i)}
      case Try(j, promoted, otherwise) =>
        && ExcusedBy(n, i, pc) - {j} <= ExcusedBy(n, i, promoted)
        && ExcusedBy(n, i, pc) - {j} <= ExcusedBy(n, i, otherwise)
      case _ => ExcusedBy(n, i, pc) == {}
  {
  }

  /** Apart from the two kinds of update, an action leaves the table and its exceptions alone. */
  lemma StepQuiet(n: nat, s: State, act: Action, t: State)
    requires 2 <= n && Inv(n, s) && Enabled(n, s, act) && t == Next(n, s, act) && t.Shape(n)
    requires act.Run? ==> !Code(n, act.i, s.pc[act.i]).SetMode? && !Code(n, act.i, s.pc[act.i]).Try?
    ensures t.philo == s.philo && Excused(n, t) == Excused(n, s)
  {
    var i := act.i;
    assert ThreadOk(n, s, i);
    CodeExcused(n, i, s.pc[i]);
    if s.owner.By? && s.owner.thread != i {
      assert ThreadOk(n, s, s.owner.thread);
      StepOther(n, s, act, t, s.owner.thread);
    }
  }

  lemma StepTable(n: nat, s: State, act: Action, t: State)
    requires 2 <= n && Inv(n, s) && Enabled(n, s, act) && t == Next(n, s, act) && t.Shape(n)
    ensures NoNeighboursEat(t.philo) && MaximalExcept(t.philo, Excused(n, t))
  {
    var i := act.i;
    var code := Code(n, i, s.pc[i]);
    Neighbours(n, i);
    CodeExcused(n, i, s.pc[i]);
    assert ThreadOk(n, s, i);
    if act.Run? && code.SetMode? {
      if code.m == WAIT {
        WaitingDisturbsNobody(s.philo, i);
      } else {
        ThinkingDisturbsNeighbours(s.philo, i);
      }
    } else if act.Run? && code.Try? {
      PromotionSettlesOne(s.philo, code.j, Excused(n, s));
    } else {
      StepQuiet(n, s, act, t);
    }
  }

  lemma StepInv(n: nat, s: State, act: Action)
    requires 2 <= n && Inv(n, s) && Enabled(n, s, act)
    ensures Inv(n, Next(n, s, act))
  {
    StepThreads(n, s, act, Next(n, s, act));
    StepTable(n, s, act, Next(n, s, act));
  }

  lemma {:induction false} ReachableInv(n: nat, states: seq<State>, acts: seq<Action>, k: nat)
    requires 2 <= n && Execution(n, states, acts) && Init(n, states[0]) && k < |states|
    ensures Inv(n, states[k])
  {
    if k == 0 {
      InitInv(n, states[0]);
    } else {
      ReachableInv(n, states, acts, k - 1);
      StepInv(n, states[k - 1], acts[k - 1]);
    }
  }

  // ---------------------------------------------------------- main results

  /** Two neighbours are never both eating, cancelled threads included. */
  lemma NeighboursNeverEatTogether(n: nat, states: seq<State>, acts: seq<Action>, k: nat, i: nat)
    requires 2 <= n && Execution(n, states, acts) && Init(n, states[0]) && k < |states| && i < n
    ensures var s := states[k];
      && s.Shape(n) && Right(n, i) < n
      && !(s.pc[i] == Eating && s.pc[Right(n, i)] == Eating)
      && !(s.philo[i] == EAT && s.philo[Right(n, i)] == EAT)
  {
    ReachableInv(n, states, acts, k);
    Neighbours(n, i);
    assert ThreadOk(n, states[k], i) && ThreadOk(n, states[k], Right(n, i));
    assert states[k].philo[i] == EAT ==> !EatsBeside(states[k].philo, i);
  }

  /** Whenever the mutex is free the choice of eaters is maximal, at most half of the table eats,
      and the waiters are at most twice as many as the eaters. */
  lemma FreeMutexMeansSettled(n: nat, states: seq<State>, acts: seq<Action>, k: nat)
    requires 2 <= n && Execution(n, states, acts) && Init(n, states[0]) && k < |states|
    requires states[k].owner == Free
    ensures |states[k].philo| == n && Settled(states[k].philo)
    ensures 2 * Sum(states[k].philo, EatW) <= n
    ensures Sum(states[k].philo, WaitW) <= 2 * Sum(states[k].philo, EatW)
  {
    ReachableInv(n, states, acts, k);
    SettledQuantities(states[k].philo);
  }

  /** No lost wake-up: a philosopher asleep on its condition still waits,
      unless the owner of the mutex is just about to signal it. */
  lemma NoLostWakeUp(n: nat, states: seq<State>, acts: seq<Action>, k: nat, i: nat)
    requires 2 <= n && Execution(n, states, acts) && Init(n, states[0]) && k < |states| && i < n
    ensures var s := states[k];
      && s.Shape(n)
      && (s.pc[i] == Asleep && !AboutToSignal(n, s, i) ==> s.philo[i] == WAIT)
  {
    ReachableInv(n, states, acts, k);
    assert ThreadOk(n, states[k], i);
  }

  /** No thread dies owning the mutex, and only owners release it or wait with it. */
  lemma DeadThreadsOwnNothing(n: nat, states: seq<State>, acts: seq<Action>, k: nat, i: nat)
    requires 2 <= n && Execution(n, states, acts) && Init(n, states[0]) && k < |states| && i < n
    ensures var s := states[k];
      && s.Shape(n)
      && (s.pc[i] == Dead ==> s.owner != By(i))
      && (Code(n, i, s.pc[i]).Release? || Code(n, i, s.pc[i]).Sleep? ==> s.owner == By(i))
  {
    ReachableInv(n, states, acts, k);
    assert ThreadOk(n, states[k], i);
  }

  /** The only statement that ends a thread is the release at the end of the cleanup handler. */
  lemma CodeDeath(n: nat, i: nat, pc: PC)
    requires 0 < n
    ensures match Code(n, i, pc)
      case Pause(next) => next != Dead
      case Acquire(next) => next != Dead
      case Release(next) => next == Dead ==> pc == Cleanup
      case SetMode(_, next) => next != Dead
      case Try(_, promoted, otherwise) => promoted != Dead && otherwise != Dead
      case Signal(_, next) => next != Dead
      case Check(waiting, done) => waiting != Dead && done != Dead
      case Sleep(asleep) => asleep != Dead
      case Stopped => true
  {
  }

  lemma StepDeath(n: nat, s: State, act: Action, t: State)
    requires 2 <= n && Enabled(n, s, act) && t == Next(n, s, act) && t.Shape(n)
    requires s.pc[act.i] != Dead && t.pc[act.i] == Dead
    ensures || (act.Die? && s.cancelled[act.i] && s.pc[act.i] in {Thinking, Eating})
            || (s.pc[act.i] == Cleanup && t.owner == Free)
  {
    Neighbours(n, act.i);
    CodeDeath(n, act.i, s.pc[act.i]);
  }

  /** A thread dies outside the monitor, or in its cleanup handler, which releases the mutex it owns;
      in particular one cancelled inside the wait has taken the mutex back first. */
  lemma DeathsAreOrderly(n: nat, states: seq<State>, acts: seq<Action>, k: nat, i: nat)
    requires 2 <= n && Execution(n, states, acts) && Init(n, states[0]) && k < |acts| && i < n
    requires states[k].Shape(n) && states[k].pc[i] != Dead
    requires states[k + 1].Shape(n) && states[k + 1].pc[i] == Dead
    ensures acts[k].i == i && states[k].cancelled[i]
    ensures
      || (acts[k].Die? && states[k].pc[i] in {Thinking, Eating})
      || (states[k].pc[i] == Cleanup && states[k].owner == By(i) && states[k + 1].owner == Free)
  {
    ReachableInv(n, states, acts, k);
    var s, act, t := states[k], acts[k], states[k + 1];
    assert ThreadOk(n, s, i) && ThreadOk(n, s, act.i);
    if act.i != i {
      StepOther(n, s, act, t, i);
      assert false;
    }
    StepDeath(n, s, act, t);
  }

  /** Some thread can execute, or act on a pending cancellation. */
  ghost predicate SomebodyCanMove(n: nat, s: State)
    requires 0 < n && s.Shape(n)
  {
    exists i: nat :: i < n && (Ready(n, s, i) || MustDie(n, s, i))
  }

  predicate DeadOrAsleep(s: State) {
    |s.pc| == |s.cancelled| &&
    forall i :: 0 <= i < |s.pc| ==> s.pc[i] == Dead || (s.pc[i] == Asleep && !s.cancelled[i])
  }

  /** The monitor's critical sections take no other lock, so their owner is never blocked. */
  lemma OwnerMoves(n: nat, s: State)
    requires 0 < n && Inv(n, s) && s.owner.By?
    ensures SomebodyCanMove(n, s) && !DeadOrAsleep(s)
  {
    assert ThreadOk(n, s, s.owner.thread);
    assert Ready(n, s, s.owner.thread) || MustDie(n, s, s.owner.thread);
  }

  /** With the mutex free, only the dead and the sleepers cannot move. */
  lemma FreeMutexMoves(n: nat, s: State, i: nat)
    requires 0 < n && Inv(n, s) && s.owner.Free? && i < n
    ensures Ready(n, s, i) || MustDie(n, s, i) <==> !(s.pc[i] == Dead || (s.pc[i] == Asleep && !s.cancelled[i]))
  {
    assert ThreadOk(n, s, i);
  }

  /** A dead neighbour is in state EAT: it was cancelled while eating, or promoted after it died waiting. */
  ghost predicate BesideDeadEater(n: nat, s: State, i: nat)
    requires 0 < n && s.Shape(n)
  {
    exists j: nat :: (j == Left(n, i) || j == Right(n, i)) && j < n && s.pc[j] == Dead && s.philo[j] == EAT
  }

  /** Among the dead and the asleep, a sleeper has a dead neighbour in state EAT. */
  lemma SleeperBesideDeadEater(n: nat, s: State, i: nat) returns (j: nat)
    requires 2 <= n && Inv(n, s) && s.owner.Free? && DeadOrAsleep(s) && i < n && s.pc[i] == Asleep
    ensures (j == Left(n, i) || j == Right(n, i)) && j < n && s.pc[j] == Dead && s.philo[j] == EAT
  {
    Neighbours(n, i);
    assert ThreadOk(n, s, i);
    j := if s.philo[Left(n, i)] == EAT then Left(n, i) else Right(n, i);
    assert ThreadOk(n, s, j);
  }

  /** The monitor is stuck exactly when every living thread is asleep and nobody has cancelled it;
      each of them then waits beside a dead philosopher in state EAT. */
  lemma StuckExactlyWhen(n: nat, states: seq<State>, acts: seq<Action>, k: nat)
    requires 2 <= n && Execution(n, states, acts) && Init(n, states[0]) && k < |states|
    ensures states[k].Shape(n)
    ensures !SomebodyCanMove(n, states[k]) <==> DeadOrAsleep(states[k])
    ensures DeadOrAsleep(states[k]) ==> states[k].owner == Free
    ensures DeadOrAsleep(states[k]) ==> forall i :: 0 <= i < n && states[k].pc[i] == Asleep ==>
      BesideDeadEater(n, states[k], i)
  {
    ReachableInv(n, states, acts, k);
    StuckState(n, states[k]);
  }

  lemma StuckState(n: nat, s: State)
    requires 2 <= n && Inv(n, s)
    ensures !SomebodyCanMove(n, s) <==> DeadOrAsleep(s)
    ensures DeadOrAsleep(s) ==> s.owner == Free
    ensures DeadOrAsleep(s) ==> forall i :: 0 <= i < n && s.pc[i] == Asleep ==>
      BesideDeadEater(n, s, i)
  {
    if s.owner.By? {
      OwnerMoves(n, s);
    } else {
      forall i: nat | i < n
        ensures Ready(n, s, i) || MustDie(n, s, i) <==> !(s.pc[i] == Dead || (s.pc[i] == Asleep && !s.cancelled[i]))
      {
        FreeMutexMoves(n, s, i);
      }
      if DeadOrAsleep(s) {
        forall i | 0 <= i < n && s.pc[i] == Asleep
          ensures BesideDeadEater(n, s, i)
        {
          var j := SleeperBesideDeadEater(n, s, i);
        }
      }
    }
  }

  /** In every reachable state, a thread can neither execute nor act on a cancellation exactly when it is dead, or
      asleep and not cancelled, or it wants the mutex that another thread owns. A cancelled thread goes no further at a
      cancellation point; a sleeper can always wake spuriously, and any thread can be cancelled once. */
  lemma BlockedExactlyWhen(n: nat, states: seq<State>, acts: seq<Action>, k: nat, i: nat)
    requires 2 <= n && Execution(n, states, acts) && Init(n, states[0]) && k < |states| && i < n
    ensures states[k].Shape(n)
    ensures var s := states[k];
      !(Ready(n, s, i) || MustDie(n, s, i)) <==>
        || s.pc[i] == Dead
        || (s.pc[i] == Asleep && !s.cancelled[i])
        || (Code(n, i, s.pc[i]).Acquire? && !(s.pc[i] == Woken && s.cancelled[i]) &&
             exists j: nat :: j < n && j != i && OwnsMutex(s.pc[j]))
    ensures states[k].cancelled[i] && states[k].pc[i] in {Thinking, Eating, UseWait} ==>
      !Enabled(n, states[k], Run(i)) && Enabled(n, states[k], Die(i))
    ensures Enabled(n, states[k], SpuriousWake(i)) <==> states[k].pc[i] == Asleep
    ensures Enabled(n, states[k], Cancel(i)) <==> !states[k].cancelled[i]
  {
    ReachableInv(n, states, acts, k);
    var s := states[k];
    assert ThreadOk(n, s, i);
    if Code(n, i, s.pc[i]).Acquire? {
      MutexTaken(n, s, i);
    }
  }

  /** A thread that wants the mutex does not own it, so whoever owns it is another thread. */
  lemma MutexTaken(n: nat, s: State, i: nat)
    requires 0 < n && Inv(n, s) && i < n && Code(n, i, s.pc[i]).Acquire?
    ensures s.owner != Free <==> exists j: nat :: j < n && j != i && OwnsMutex(s.pc[j])
  {
    assert ThreadOk(n, s, i);
    if s.owner.By? {
      assert ThreadOk(n, s, s.owner.thread);
    } else {
      forall j: nat | j < n
        ensures !OwnsMutex(s.pc[j])
      {
        assert ThreadOk(n, s, j);
      }
    }
  }

  lemma OnlyCancelCancels(n: nat, s: State, act: Action, t: State)
    requires 2 <= n && Enabled(n, s, act) && t == Next(n, s, act) && !act.Cancel?
    ensures t.cancelled == s.cancelled
  {
  }

  lemma UncancelledAreAlive(n: nat, s: State)
    requires 0 < n && Inv(n, s) && forall i :: 0 <= i < n ==> !s.cancelled[i]
    ensures forall i :: 0 <= i < n ==> s.pc[i] != Dead
  {
    forall i | 0 <= i < n
      ensures s.pc[i] != Dead
    {
      assert ThreadOk(n, s, i);
    }
  }

  lemma {:induction false} NobodyCancelledNobodyDies(n: nat, states: seq<State>, acts: seq<Action>, k: nat)
    requires 2 <= n && Execution(n, states, acts) && Init(n, states[0]) && k < |states|
    requires forall m :: 0 <= m < |acts| ==> !acts[m].Cancel?
    ensures states[k].Shape(n)
    ensures forall i :: 0 <= i < n ==> !states[k].cancelled[i]
    ensures forall i :: 0 <= i < n ==> states[k].pc[i] != Dead
  {
    ReachableInv(n, states, acts, k);
    if k != 0 {
      NobodyCancelledNobodyDies(n, states, acts, k - 1);
      assert !acts[k - 1].Cancel?;
      OnlyCancelCancels(n, states[k - 1], acts[k - 1], states[k]);
    }
    UncancelledAreAlive(n, states[k]);
  }

  /** Deadlock freedom: without cancellation some thread can execute in every reachable state. */
  lemma DeadlockFree(n: nat, states: seq<State>, acts: seq<Action>, k: nat)
    requires 2 <= n && Execution(n, states, acts) && Init(n, states[0]) && k < |states|
    requires forall m :: 0 <= m < |acts| ==> !acts[m].Cancel?
    ensures states[k].Shape(n) && exists i: nat :: i < n && Ready(n, states[k], i)
  {
    NobodyCancelledNobodyDies(n, states, acts, k);
    StuckExactlyWhen(n, states, acts, k);
    assert states[k].pc[0] != Dead;
    var i: nat :| i < n && (Ready(n, states[k], i) || MustDie(n, states[k], i));
    assert Ready(n, states[k], i);
  }

  // ---------------------------------------------------------------- progress

  /** How far a thread is from finishing a meal or falling asleep. A signal pays for its wake-up. */
  function ToMeal(pc: PC): (d: int)
    ensures 0 <= d <= 23
  {
    match pc
    case PutLock => 23
    case PutSet => 22
    case PutLeft => 21
    case PutLeftSignal => 20
    case PutRight => 16
    case PutRightSignal => 15
    case PutLeave => 11
    case Thinking => 10
    case UseLock => 9
    case UseSet => 8
    case UseTry => 7
    case UseSignal => 6
    case Woken => 3
    case UseCheck | CancelLock => 2
    case UseWait | UseLeave | Cleanup => 1
    case Eating | Asleep | Dead => 0
  }

  /** The step ends a meal. */
  predicate Finishes(s: State, act: Action) {
    act.Run? && act.i < |s.pc| && s.pc[act.i] == Eating
  }

  /** The budget a step adds: a meal starts a new cycle, a spurious wake-up repeats a test. */
  function Grant(s: State, act: Action): int {
    (if Finishes(s, act) then 24 else 0) + (if act.SpuriousWake? then 4 else 0)
  }

  function Granted(states: seq<State>, acts: seq<Action>): int
    requires |acts| <= |states|
  {
    if acts == [] then 0 else Grant(states[0], acts[0]) + Granted(states[1..], acts[1..])
  }

  lemma CodeToMeal(n: nat, i: nat, pc: PC)
    requires 0 < n
    ensures match Code(n, i, pc)
      case Pause(next) => ToMeal(next) < ToMeal(pc) + if pc == Eating then 24 else 0
      case Acquire(next) => ToMeal(next) < ToMeal(pc)
      case Release(next) => ToMeal(next) < ToMeal(pc)
      case SetMode(_, next) => ToMeal(next) < ToMeal(pc)
      case Try(_, promoted, otherwise) => ToMeal(promoted) < ToMeal(pc) && ToMeal(otherwise) < ToMeal(pc)
      case Signal(_, next) => ToMeal(next) + 3 < ToMeal(pc)
      case Check(waiting, done) => ToMeal(waiting) < ToMeal(pc) && ToMeal(done) < ToMeal(pc)
      case Sleep(asleep) => ToMeal(asleep) < ToMeal(pc)
      case Stopped => true
  {
  }

  lemma SignalToMeal(s: State, j: nat)
    ensures |s.Signalled(j).pc| == |s.pc| && Sum(s.Signalled(j).pc, ToMeal) <= Sum(s.pc, ToMeal) + 3
  {
    if j < |s.pc| && s.pc[j] == Asleep {
      SumUpdate(s.pc, j, Woken, ToMeal);
    }
  }

  /** The acting thread itself; a signaller has paid for the wake-up. */
  lemma SelfToMeal(n: nat, s: State, act: Action, t: State)
    requires 2 <= n && Enabled(n, s, act) && t == Next(n, s, act) && (act.Run? || act.SpuriousWake?)
    ensures t.Shape(n)
    ensures ToMeal(t.pc[act.i]) < ToMeal(s.pc[act.i]) + Grant(s, act)
    ensures act.Run? && Code(n, act.i, s.pc[act.i]).Signal? ==> ToMeal(t.pc[act.i]) + 3 < ToMeal(s.pc[act.i])
  {
    Neighbours(n, act.i);
    CodeToMeal(n, act.i, s.pc[act.i]);
  }

  lemma StepToMeal(n: nat, s: State, act: Action, t: State)
    requires 2 <= n && Enabled(n, s, act) && t == Next(n, s, act) && (act.Run? || act.SpuriousWake?)
    ensures t.Shape(n)
    ensures Sum(t.pc, ToMeal) + 1 <= Sum(s.pc, ToMeal) + Grant(s, act)
  {
    var i := act.i;
    Neighbours(n, i);
    SelfToMeal(n, s, act, t);
    var u := s;
    if act.Run? && Code(n, i, s.pc[i]).Signal? {
      u := s.Signalled(Code(n, i, s.pc[i]).j);
      SignalToMeal(s, Code(n, i, s.pc[i]).j);
      assert u.pc[i] == s.pc[i];
    }
    assert t.pc == u.pc[i := t.pc[i]];
    SumUpdate(u.pc, i, t.pc[i], ToMeal);
  }

  /** Nobody is cancelled in the run. */
  predicate Undisturbed(acts: seq<Action>) {
    forall k :: 0 <= k < |acts| ==> acts[k].Run? || acts[k].SpuriousWake?
  }

  lemma ExecutionTail(n: nat, states: seq<State>, acts: seq<Action>)
    requires 2 <= n && Execution(n, states, acts) && acts != []
    ensures Execution(n, states[1..], acts[1..])
    ensures Enabled(n, states[0], acts[0]) && states[1] == Next(n, states[0], acts[0])
  {
    assert states[0 + 1] == Next(n, states[0], acts[0]);
    forall k | 0 <= k < |acts[1..]|
      ensures Enabled(n, states[1..][k], acts[1..][k])
      ensures states[1..][k + 1] == Next(n, states[1..][k], acts[1..][k])
    {
      assert states[k + 1 + 1] == Next(n, states[k + 1], acts[k + 1]);
    }
  }

  lemma {:induction false} ExecutionToMeal(n: nat, states: seq<State>, acts: seq<Action>)
    requires 2 <= n && Execution(n, states, acts) && states[0].Shape(n) && Undisturbed(acts)
    ensures states[|acts|].Shape(n)
    ensures |acts| + Sum(states[|acts|].pc, ToMeal) <= Sum(states[0].pc, ToMeal) + Granted(states, acts)
  {
    if acts == [] {
    } else {
      ExecutionTail(n, states, acts);
      assert acts[0].Run? || acts[0].SpuriousWake?;
      StepToMeal(n, states[0], acts[0], states[1]);
      assert Undisturbed(acts[1..]);
      ExecutionToMeal(n, states[1..], acts[1..]);
    }
  }

  /** Progress: whatever the scheduler does, a run of n steps without cancellation contains enough finished meals
      and spurious wake-ups to pay for it: n <= 10 N + 24 meals + 4 spurious wake-ups. */
  lemma {:induction false} Throughput(n: nat, states: seq<State>, acts: seq<Action>)
    requires 2 <= n && Execution(n, states, acts) && Init(n, states[0]) && Undisturbed(acts)
    ensures |acts| <= 10 * n + Granted(states, acts)
  {
    ExecutionToMeal(n, states, acts);
    SumConstant(states[0].pc, ToMeal, 10);
    SumNonNegative(states[|acts|].pc, ToMeal);
  }

  lemma {:induction false} NothingGranted(states: seq<State>, acts: seq<Action>)
    requires |acts| <= |states|
    requires forall k :: 0 <= k < |acts| ==> acts[k].Run? && !Finishes(states[k], acts[k])
    ensures Granted(states, acts) == 0
  {
    if acts == [] {
    } else {
      assert acts[0].Run? && !Finishes(states[0], acts[0]);
      forall k | 0 <= k < |acts[1..]|
        ensures acts[1..][k].Run? && !Finishes(states[1..][k], acts[1..][k])
      {
        assert acts[k + 1].Run? && !Finishes(states[k + 1], acts[k + 1]);
      }
      NothingGranted(states[1..], acts[1..]);
    }
  }

  /** Hence somebody finishes a meal in every run of more than 10 N statements. */
  lemma SomebodyEats(n: nat, states: seq<State>, acts: seq<Action>) returns (k: nat)
    requires 2 <= n && Execution(n, states, acts) && Init(n, states[0]) && 10 * n < |acts|
    requires forall k :: 0 <= k < |acts| ==> acts[k].Run?
    ensures k < |acts| && Finishes(states[k], acts[k])
  {
    if forall k :: 0 <= k < |acts| ==> !Finishes(states[k], acts[k]) {
      NothingGranted(states, acts);
      Throughput(n, states, acts);
      assert false;
    }
    k :| 0 <= k < |acts| && Finishes(states[k], acts[k]);
  }

  // ---------------------------------------------------- orderly cancellation

  predicate AllCancelled(n: nat, s: State)
    requires s.Shape(n)
  {
    forall i :: 0 <= i < n ==> s.cancelled[i]
  }

  /** An upper bound on the steps a cancelled thread has left. */
  function Remaining(pc: PC): (r: int)
    ensures 0 <= r <= 8
    ensures r == 0 <==> pc == Dead
  {
    match pc
    case Dead => 0
    case Thinking | Eating | Cleanup => 1
    case CancelLock | UseWait | UseLeave | PutLeave => 2
    case UseCheck | PutRightSignal => 3
    case Woken | UseSignal | PutRight => 4
    case Asleep | UseTry | PutLeftSignal => 5
    case UseSet | PutLeft => 6
    case UseLock | PutSet => 7
    case PutLock => 8
  }

  lemma CodeRemaining(n: nat, i: nat, pc: PC)
    requires 0 < n && !CancellationPoint(pc)
    ensures match Code(n, i, pc)
      case Acquire(next) => Remaining(next) < Remaining(pc)
      case Release(next) => Remaining(next) < Remaining(pc)
      case SetMode(_, next) => Remaining(next) < Remaining(pc)
      case Try(_, promoted, otherwise) => Remaining(promoted) < Remaining(pc) && Remaining(otherwise) < Remaining(pc)
      case Signal(_, next) => Remaining(next) < Remaining(pc)
      case Check(waiting, done) => Remaining(waiting) < Remaining(pc) && Remaining(done) < Remaining(pc)
      case _ => true
  {
  }

  /** Delivering a signal brings the sleeper nearer to its end. */
  lemma CancelledSignal(s: State, j: nat)
    ensures |s.Signalled(j).pc| == |s.pc| && Sum(s.Signalled(j).pc, Remaining) <= Sum(s.pc, Remaining)
  {
    if j < |s.pc| && s.pc[j] == Asleep {
      SumUpdate(s.pc, j, Woken, Remaining);
    }
  }

  /** The acting thread itself comes nearer to its end. */
  lemma CancelledSelf(n: nat, s: State, act: Action, t: State)
    requires 2 <= n && Enabled(n, s, act) && t == Next(n, s, act) && s.cancelled[act.i]
    ensures t.Shape(n) && t.cancelled == s.cancelled && Remaining(t.pc[act.i]) < Remaining(s.pc[act.i])
  {
    Neighbours(n, act.i);
    if act.Run? {
      CodeRemaining(n, act.i, s.pc[act.i]);
    }
  }

  lemma CancelledStep(n: nat, s: State, act: Action, t: State)
    requires 2 <= n && Enabled(n, s, act) && t == Next(n, s, act) && AllCancelled(n, s)
    ensures t.Shape(n) && AllCancelled(n, t)
    ensures Sum(t.pc, Remaining) < Sum(s.pc, Remaining)
  {
    var i := act.i;
    Neighbours(n, i);
    CancelledSelf(n, s, act, t);
    var u := s;
    if act.Run? && Code(n, i, s.pc[i]).Signal? {
      u := s.Signalled(Code(n, i, s.pc[i]).j);
      CancelledSignal(s, Code(n, i, s.pc[i]).j);
      assert u.pc[i] == s.pc[i];
    }
    assert t.pc == u.pc[i := t.pc[i]];
    SumUpdate(u.pc, i, t.pc[i], Remaining);
  }

  lemma {:induction false} CancelledRunIsShort(n: nat, states: seq<State>, acts: seq<Action>)
    requires 2 <= n && Execution(n, states, acts) && states[0].Shape(n) && AllCancelled(n, states[0])
    ensures states[|acts|].Shape(n) && AllCancelled(n, states[|acts|])
    ensures |acts| + Sum(states[|acts|].pc, Remaining) <= Sum(states[0].pc, Remaining)
  {
    if acts == [] {
    } else {
      CancelledStep(n, states[0], acts[0], states[1]);
      CancelledRunIsShort(n, states[1..], acts[1..]);
    }
  }

  /** Orderly cancellation: once every thread is cancelled, every schedule (spurious wake-ups
      included) takes at most 8 N further steps, and where it can go no further all threads
      are dead and the mutex is free. */
  lemma OrderlyShutdown(n: nat, states: seq<State>, acts: seq<Action>, k: nat)
    requires 2 <= n && Execution(n, states, acts) && Init(n, states[0]) && k < |states|
    requires states[k].Shape(n) && AllCancelled(n, states[k])
    ensures |acts| - k <= 8 * n
    ensures var s := states[|acts|];
      && s.Shape(n)
      && (SomebodyCanMove(n, s) || (s.owner == Free && forall i :: 0 <= i < n ==> s.pc[i] == Dead))
  {
    assert Execution(n, states[k..], acts[k..]);
    CancelledRunIsShort(n, states[k..], acts[k..]);
    SumBounds(states[k].pc, Remaining, 0, 8);
    SumNonNegative(states[|acts|].pc, Remaining);
    StuckExactlyWhen(n, states, acts, |acts|);
  }
}
