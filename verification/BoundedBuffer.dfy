/** The bounded buffer of cw07/zad1: any number of producer and consumer processes
    share an array of MAX integers, in which -1 marks a free slot, under the
    semaphores EMPTY, FILL and MUTEX. Neither search loop checks a bound. */
module BoundedBuffer {
  import opened Sums

  const FREE := -1

  /** `rand() % 30000`. */
  const VALUES := 30000

  // ------------------------------------------------ the two critical sections

  predicate FirstAt(data: seq<int>, i: nat, free: bool) {
    && i < |data| && (data[i] == FREE) == free
    && forall k :: 0 <= k < i ==> (data[k] == FREE) != free
  }

  /** Producer, lines 102-104; the loop is safe exactly because a free slot exists. */
  method Deposit(data: array<int>, toAdd: int) returns (i: nat)
    requires FREE in data[..]
    modifies data
    ensures FirstAt(old(data[..]), i, true)
    ensures i < data.Length && old(data[i]) == -1 && forall k :: 0 <= k < i ==> old(data[k]) != -1
    ensures data[..] == old(data[..])[i := toAdd]
  {
    i := 0;
    while data[i] != FREE
      invariant i < data.Length && forall k :: 0 <= k < i ==> data[k] != FREE
      decreases data.Length - i
    {
      assert FREE in data[i + 1..];
      i := i + 1;
    }
    data[i] := toAdd;
  }

  /** Consumer, lines 102-105. */
  method Withdraw(data: array<int>) returns (i: nat, toCheck: int)
    requires exists k :: 0 <= k < data.Length && data[k] != FREE
    modifies data
    ensures FirstAt(old(data[..]), i, false) && toCheck == old(data[..])[i]
    ensures i < data.Length && old(data[i]) != -1 && forall k :: 0 <= k < i ==> old(data[k]) == -1
    ensures data[..] == old(data[..])[i := -1]
  {
    i := 0;
    while data[i] == FREE
      invariant i < data.Length && forall k :: 0 <= k < i ==> data[k] == FREE
      decreases data.Length - i
    {
      i := i + 1;
    }
    toCheck := data[i];
    data[i] := FREE;
  }

  // ------------------------------------------------------------ the processes

  datatype PC =
    // producer, lines 99-106
    | Draw | DownEmpty(v: int) | LockToPut(v: int) | SeekFree(v: int, i: nat) | Put(v: int, i: nat)
    | UnlockAfterPut | UpFill
    // consumer, lines 100-107
    | DownFill | LockToTake | SeekFull(i: nat) | Fetch(i: nat) | Clear(i: nat, v: int)
    | UnlockAfterTake | UpEmpty
    // a slot beyond the array has been touched
    | Overrun

  predicate IsProducer(pc: PC) {
    pc.Draw? || pc.DownEmpty? || pc.LockToPut? || pc.SeekFree? || pc.Put? || pc.UnlockAfterPut? || pc.UpFill?
  }

  /** `written` and `taken` record the values put into and taken out of the array. */
  datatype State = State(
    pc: seq<PC>, empty: int, fill: int, mutex: int, data: seq<int>,
    written: multiset<int>, taken: multiset<int>)
  {
    function Goto(p: nat, next: PC): State
      requires p < |pc|
    {
      this.(pc := pc[p := next])
    }
  }

  /** After `init_sem` and `init_shm`. */
  predicate Init(max: nat, s: State) {
    && (forall p :: 0 <= p < |s.pc| ==> s.pc[p] == Draw || s.pc[p] == DownFill)
    && s.empty == max && s.fill == 0 && s.mutex == 1
    && |s.data| == max && (forall i :: 0 <= i < max ==> s.data[i] == FREE)
    && s.written == s.taken == multiset{}
  }

  predicate Drawn(v: int) {
    0 <= v < VALUES
  }

  /** No semaphore holds process `p` back. */
  predicate Ready(s: State, p: nat) {
    p < |s.pc| &&
    match s.pc[p]
    case DownEmpty(_) => 0 < s.empty
    case DownFill => 0 < s.fill
    case LockToPut(_) => 0 < s.mutex
    case LockToTake => 0 < s.mutex
    case Overrun => false
    case _ => true
  }

  /** Process `p` executes its next statement; `drawn` is the value of `rand()` where it is called. */
  function Exec(s: State, p: nat, drawn: int): State
    requires p < |s.pc|
  {
    match s.pc[p]
    case Draw => s.Goto(p, DownEmpty(drawn))
    case DownEmpty(v) => s.(empty := s.empty - 1).Goto(p, LockToPut(v))
    case LockToPut(v) => s.(mutex := s.mutex - 1).Goto(p, SeekFree(v, 0))
    case SeekFree(v, i) =>
      s.Goto(p, if |s.data| <= i then Overrun else if s.data[i] == FREE then Put(v, i) else SeekFree(v, i + 1))
    case Put(v, i) =>
      if |s.data| <= i then s.Goto(p, Overrun)
      else s.(data := s.data[i := v], written := s.written + multiset{v}).Goto(p, UnlockAfterPut)
    case UnlockAfterPut => s.(mutex := s.mutex + 1).Goto(p, UpFill)
    case UpFill => s.(fill := s.fill + 1).Goto(p, Draw)
    case DownFill => s.(fill := s.fill - 1).Goto(p, LockToTake)
    case LockToTake => s.(mutex := s.mutex - 1).Goto(p, SeekFull(0))
    case SeekFull(i) =>
      s.Goto(p, if |s.data| <= i then Overrun else if s.data[i] != FREE then Fetch(i) else SeekFull(i + 1))
    case Fetch(i) => s.Goto(p, if |s.data| <= i then Overrun else Clear(i, s.data[i]))
    case Clear(i, v) =>
      if |s.data| <= i then s.Goto(p, Overrun)
      else s.(data := s.data[i := FREE], taken := s.taken + multiset{v}).Goto(p, UnlockAfterTake)
    case UnlockAfterTake => s.(mutex := s.mutex + 1).Goto(p, UpEmpty)
    case UpEmpty => s.(empty := s.empty + 1).Goto(p, DownFill)
    case Overrun => s
  }

  predicate Step(s: State, p: nat, drawn: int, t: State) {
    Ready(s, p) && Drawn(drawn) && t == Exec(s, p, drawn)
  }

  datatype Action = Run(p: nat, drawn: int)

  predicate Execution(states: seq<State>, acts: seq<Action>) {
    && |states| == |acts| + 1
    && forall k :: 0 <= k < |acts| ==> Step(states[k], acts[k].p, acts[k].drawn, states[k + 1])
  }

  // -------------------------------------------------------------- the ledger

  /** Holding an unspent EMPTY token, or having freed a slot without posting EMPTY yet. */
  function EmptyTokenW(pc: PC): int {
    One(pc.LockToPut? || pc.SeekFree? || pc.Put? || pc.UnlockAfterTake? || pc.UpEmpty?)
  }

  /** Holding an unspent FILL token, or having filled a slot without posting FILL yet. */
  function FillTokenW(pc: PC): int {
    One(pc.LockToTake? || pc.SeekFull? || pc.Fetch? || pc.Clear? || pc.UnlockAfterPut? || pc.UpFill?)
  }

  /** Inside the critical section. */
  function CriticalW(pc: PC): int {
    One(pc.SeekFree? || pc.Put? || pc.UnlockAfterPut? || pc.SeekFull? || pc.Fetch? || pc.Clear? || pc.UnlockAfterTake?)
  }

  function FreeW(v: int): int { One(v == FREE) }
  function FullW(v: int): int { One(v != FREE) }

  /** The values in the array. */
  function Contents(data: seq<int>): multiset<int> {
    if data == [] then multiset{} else Item(data[0]) + Contents(data[1..])
  }

  /** What a process knows at its program counter. */
  predicate LocalOk(data: seq<int>, pc: PC) {
    match pc
    case DownEmpty(v) => Drawn(v)
    case LockToPut(v) => Drawn(v)
    case SeekFree(v, i) => Drawn(v) && i <= |data| && forall k :: 0 <= k < i ==> data[k] != FREE
    case Put(v, i) => Drawn(v) && FirstAt(data, i, true)
    case SeekFull(i) => i <= |data| && forall k :: 0 <= k < i ==> data[k] == FREE
    case Fetch(i) => FirstAt(data, i, false)
    case Clear(i, v) => FirstAt(data, i, false) && data[i] == v
    case Overrun => false
    case _ => true
  }

  predicate Inv(max: nat, s: State) {
    && |s.data| == max
    && 0 <= s.empty && 0 <= s.fill && 0 <= s.mutex
    && s.mutex + Sum(s.pc, CriticalW) == 1
    && s.empty + Sum(s.pc, EmptyTokenW) == Sum(s.data, FreeW)
    && s.fill + Sum(s.pc, FillTokenW) == Sum(s.data, FullW)
    && (forall p :: 0 <= p < |s.pc| ==> LocalOk(s.data, s.pc[p]))
    && s.written == s.taken + Contents(s.data)
  }

  function Item(v: int): multiset<int> {
    if v == FREE then multiset{} else multiset{v}
  }

  lemma {:induction false} ContentsUpdate(data: seq<int>, i: nat, v: int)
    requires i < |data|
    ensures Contents(data[i := v]) + Item(data[i]) == Contents(data) + Item(v)
  {
    var after := data[i := v];
    if i == 0 {
      assert after[1..] == data[1..];
    } else {
      ContentsUpdate(data[1..], i - 1, v);
      assert after[1..] == data[1..][i - 1 := v] && after[0] == data[0];
      var first, a := Item(data[0]), Contents(after[1..]);
      assert (first + a) + Item(data[i]) == first + (a + Item(data[i]));
      assert (first + Contents(data[1..])) + Item(v) == first + (Contents(data[1..]) + Item(v));
    }
  }

  lemma {:induction false} ContentsFree(data: seq<int>)
    requires forall i :: 0 <= i < |data| ==> data[i] == FREE
    ensures Contents(data) == multiset{} && Sum(data, FreeW) == |data| && Sum(data, FullW) == 0
  {
    if data == [] {
    } else {
      ContentsFree(data[1..]);
    }
  }

  /** Every slot is free or full. */
  lemma {:induction false} SlotsAddUp(data: seq<int>)
    ensures Sum(data, FreeW) + Sum(data, FullW) == |data|
  {
    if data == [] {
    } else {
      SlotsAddUp(data[1..]);
    }
  }

  lemma InitInv(max: nat, s: State)
    requires Init(max, s)
    ensures Inv(max, s)
  {
    ContentsFree(s.data);
    SumConstant(s.pc, CriticalW, 0);
    SumConstant(s.pc, EmptyTokenW, 0);
    SumConstant(s.pc, FillTokenW, 0);
  }

  /** Only one process is inside the critical section. */
  lemma OneInside(max: nat, s: State, p: nat, q: nat)
    requires Inv(max, s) && p < |s.pc| && q < |s.pc| && p != q && CriticalW(s.pc[p]) == 1
    ensures CriticalW(s.pc[q]) == 0
  {
    SumIncludesTwo(s.pc, if p < q then p else q, if p < q then q else p, CriticalW);
  }

  /** The ledger keeps the searches inside the array. */
  lemma SearchStops(max: nat, s: State, p: nat)
    requires Inv(max, s) && p < |s.pc|
    ensures s.pc[p].SeekFree? || s.pc[p].SeekFull? ==> s.pc[p].i < max
  {
    SumIncludesOne(s.pc, p, EmptyTokenW);
    SumIncludesOne(s.pc, p, FillTokenW);
    assert LocalOk(s.data, s.pc[p]);
    match s.pc[p]
    case SeekFree(_, _) =>
      var k := SumWitness(s.data, FreeW);
    case SeekFull(_) =>
      var k := SumWitness(s.data, FullW);
    case _ =>
  }

  lemma StepLocalSelf(max: nat, s: State, p: nat, drawn: int, t: State)
    requires |s.data| == max && Step(s, p, drawn, t) && LocalOk(s.data, s.pc[p])
    requires s.pc[p].SeekFree? || s.pc[p].SeekFull? ==> s.pc[p].i < max
    ensures t.pc == s.pc[p := t.pc[p]] && |t.data| == max && LocalOk(t.data, t.pc[p])
  {
  }

  lemma StepLocal(max: nat, s: State, p: nat, drawn: int, t: State)
    requires Inv(max, s) && Step(s, p, drawn, t)
    ensures |t.pc| == |s.pc| && |t.data| == max
    ensures forall q :: 0 <= q < |t.pc| ==> LocalOk(t.data, t.pc[q])
  {
    SearchStops(max, s, p);
    StepLocalSelf(max, s, p, drawn, t);
    forall q | 0 <= q < |t.pc| && q != p
      ensures LocalOk(t.data, t.pc[q])
    {
      assert LocalOk(s.data, s.pc[q]);
      if CriticalW(s.pc[p]) == 1 {
        OneInside(max, s, p, q);
      } else {
        assert t.data == s.data;
      }
    }
  }

  /** Each statement moves tokens without creating or losing any. */
  lemma StepTokens(max: nat, s: State, p: nat, drawn: int, t: State)
    requires |s.data| == max && Step(s, p, drawn, t) && LocalOk(s.data, s.pc[p]) && !t.pc[p].Overrun?
    ensures t.pc == s.pc[p := t.pc[p]]
    ensures t.mutex + CriticalW(t.pc[p]) == s.mutex + CriticalW(s.pc[p])
    ensures t.empty + EmptyTokenW(t.pc[p]) + One(s.pc[p].Put?) == s.empty + EmptyTokenW(s.pc[p]) + One(s.pc[p].Clear?)
    ensures t.fill + FillTokenW(t.pc[p]) + One(s.pc[p].Clear?) == s.fill + FillTokenW(s.pc[p]) + One(s.pc[p].Put?)
    ensures 0 <= s.empty && 0 <= s.fill && 0 <= s.mutex ==> 0 <= t.empty && 0 <= t.fill && 0 <= t.mutex
  {
  }

  lemma StepSlots(max: nat, s: State, p: nat, drawn: int, t: State)
    requires |s.data| == max && Step(s, p, drawn, t) && LocalOk(s.data, s.pc[p]) && !t.pc[p].Overrun?
    ensures Sum(t.data, FreeW) + One(s.pc[p].Put?) == Sum(s.data, FreeW) + One(s.pc[p].Clear?)
    ensures Sum(t.data, FullW) + One(s.pc[p].Clear?) == Sum(s.data, FullW) + One(s.pc[p].Put?)
  {
    match s.pc[p]
    case Put(v, i) =>
      SumUpdate(s.data, i, v, FreeW);
      SumUpdate(s.data, i, v, FullW);
    case Clear(i, v) =>
      SumUpdate(s.data, i, FREE, FreeW);
      SumUpdate(s.data, i, FREE, FullW);
    case _ =>
  }

  /** A write adds an item to the array, a clearing hands one over. */
  lemma ContentsPut(data: seq<int>, i: nat, v: int)
    requires FirstAt(data, i, true) && v != FREE
    ensures Contents(data[i := v]) == Contents(data) + multiset{v}
  {
    ContentsUpdate(data, i, v);
  }

  lemma ContentsClear(data: seq<int>, i: nat)
    requires FirstAt(data, i, false)
    ensures Contents(data[i := FREE]) + multiset{data[i]} == Contents(data)
  {
    ContentsUpdate(data, i, FREE);
  }

  lemma StepContents(max: nat, s: State, p: nat, drawn: int, t: State)
    requires Step(s, p, drawn, t) && LocalOk(s.data, s.pc[p])
    requires s.written == s.taken + Contents(s.data)
    ensures t.written == t.taken + Contents(t.data)
  {
    if s.pc[p].Put? {
      ContentsPut(s.data, s.pc[p].i, s.pc[p].v);
    } else if s.pc[p].Clear? {
      ContentsClear(s.data, s.pc[p].i);
    }
  }

  lemma StepLedger(max: nat, s: State, p: nat, drawn: int, t: State)
    requires Inv(max, s) && Step(s, p, drawn, t) && !t.pc[p].Overrun?
    ensures 0 <= t.empty && 0 <= t.fill && 0 <= t.mutex
    ensures t.mutex + Sum(t.pc, CriticalW) == 1
    ensures t.empty + Sum(t.pc, EmptyTokenW) == Sum(t.data, FreeW)
    ensures t.fill + Sum(t.pc, FillTokenW) == Sum(t.data, FullW)
    ensures t.written == t.taken + Contents(t.data)
  {
    assert LocalOk(s.data, s.pc[p]);
    StepTokens(max, s, p, drawn, t);
    StepSlots(max, s, p, drawn, t);
    StepContents(max, s, p, drawn, t);
    SumUpdate(s.pc, p, t.pc[p], CriticalW);
    SumUpdate(s.pc, p, t.pc[p], EmptyTokenW);
    SumUpdate(s.pc, p, t.pc[p], FillTokenW);
  }

  lemma StepInv(max: nat, s: State, p: nat, drawn: int, t: State)
    requires Inv(max, s) && Step(s, p, drawn, t)
    ensures Inv(max, t)
  {
    StepLocal(max, s, p, drawn, t);
    assert LocalOk(t.data, t.pc[p]);
    StepLedger(max, s, p, drawn, t);
  }

  lemma {:induction false} ReachableInv(max: nat, states: seq<State>, acts: seq<Action>, k: nat)
    requires Execution(states, acts) && Init(max, states[0]) && k < |states|
    ensures Inv(max, states[k])
  {
    if k == 0 {
      InitInv(max, states[0]);
    } else {
      ReachableInv(max, states, acts, k - 1);
      StepInv(max, states[k - 1], acts[k - 1].p, acts[k - 1].drawn, states[k]);
    }
  }

  // ------------------------------------------------------------- main results

  /** No process ever touches a slot beyond the array, although neither loop checks. What it writes or clears
      is the slot that `Deposit` or `Withdraw` would pick on the array of that moment. */
  lemma SearchesStayInside(max: nat, states: seq<State>, acts: seq<Action>, k: nat, p: nat)
    requires Execution(states, acts) && Init(max, states[0]) && k < |states| && p < |states[k].pc|
    ensures states[k].pc[p] != Overrun
    ensures var pc := states[k].pc[p];
      (pc.SeekFree? || pc.SeekFull? || pc.Put? || pc.Fetch? || pc.Clear?) ==> pc.i < |states[k].data| == max
    ensures states[k].pc[p].Put? ==> FirstAt(states[k].data, states[k].pc[p].i, true)
    ensures states[k].pc[p].Put? ==>
      var i := states[k].pc[p].i; states[k].data[i] == -1 && forall j :: 0 <= j < i ==> states[k].data[j] != -1
    ensures states[k].pc[p].Clear? ==>
      var i := states[k].pc[p].i; states[k].data[i] != -1 && forall j :: 0 <= j < i ==> states[k].data[j] == -1
    ensures states[k].pc[p].Clear? ==>
      FirstAt(states[k].data, states[k].pc[p].i, false) && states[k].data[states[k].pc[p].i] == states[k].pc[p].v
  {
    ReachableInv(max, states, acts, k);
    SearchStops(max, states[k], p);
    assert LocalOk(states[k].data, states[k].pc[p]);
  }

  /** The ledger, and mutual exclusion. */
  lemma LedgerBalances(max: nat, states: seq<State>, acts: seq<Action>, k: nat)
    requires Execution(states, acts) && Init(max, states[0]) && k < |states|
    ensures var s := states[k];
      && s.empty + Sum(s.pc, EmptyTokenW) == Sum(s.data, FreeW)
      && s.fill + Sum(s.pc, FillTokenW) == Sum(s.data, FullW)
      && Sum(s.data, FreeW) + Sum(s.data, FullW) == max
      && Sum(s.pc, CriticalW) <= 1
  {
    ReachableInv(max, states, acts, k);
    SlotsAddUp(states[k].data);
  }

  lemma {:induction false} ContentsSize(data: seq<int>)
    ensures |Contents(data)| == Sum(data, FullW)
    ensures FREE !in Contents(data)
  {
    if data == [] {
    } else {
      ContentsSize(data[1..]);
    }
  }

  /** Conservation: what was written is what was taken plus what is in the array, so every item is
      consumed at most once; at most MAX items are pending, and -1 is never an item. */
  lemma ItemsAreConserved(max: nat, states: seq<State>, acts: seq<Action>, k: nat)
    requires Execution(states, acts) && Init(max, states[0]) && k < |states|
    ensures var s := states[k];
      && s.written == s.taken + Contents(s.data)
      && s.taken <= s.written && |s.written| <= |s.taken| + max
  {
    ReachableInv(max, states, acts, k);
    ContentsSize(states[k].data);
    SlotsAddUp(states[k].data);
    SumNonNegative(states[k].data, FreeW);
  }

  // ----------------------------------------------- what was drawn is written

  /** How often `v` has been drawn at line 99 so far. */
  function Draws(states: seq<State>, acts: seq<Action>, v: int): nat
    requires |acts| <= |states|
    decreases |acts|
  {
    if acts == [] then 0 else
      var k := |acts| - 1;
      var now := acts[k].p < |states[k].pc| && states[k].pc[acts[k].p] == Draw && acts[k].drawn == v;
      Draws(states, acts[..k], v) + if now then 1 else 0
  }

  /** The producer has drawn `v` and not yet written it. */
  predicate Holds(pc: PC, v: int) {
    (pc.DownEmpty? || pc.LockToPut? || pc.SeekFree? || pc.Put?) && pc.v == v
  }

  function HoldsW(v: int): PC -> int {
    (pc: PC) => One(Holds(pc, v))
  }

  /** A step draws a value, passes it on, or writes it. */
  lemma SelfHolds(s: State, p: nat, drawn: int, t: State, v: int)
    requires Step(s, p, drawn, t) && !t.pc[p].Overrun?
    ensures t.pc == s.pc[p := t.pc[p]]
    ensures t.written[v] + One(Holds(t.pc[p], v)) ==
      s.written[v] + One(Holds(s.pc[p], v)) + One(s.pc[p] == Draw && drawn == v)
  {
  }

  /** Nothing drawn is lost or changed on its way into the array: over every run each value has been drawn as often
      as it was written and is still held by producers. */
  lemma {:induction false} DrawsAreConserved(max: nat, states: seq<State>, acts: seq<Action>, k: nat, v: int)
    requires Execution(states, acts) && Init(max, states[0]) && k < |states|
    ensures Draws(states, acts[..k], v) == states[k].written[v] + Sum(states[k].pc, HoldsW(v))
  {
    if k == 0 {
      SumConstant(states[0].pc, HoldsW(v), 0);
    } else {
      DrawsAreConserved(max, states, acts, k - 1, v);
      assert acts[..k][..k - 1] == acts[..k - 1];
      var s, p, drawn, t := states[k - 1], acts[k - 1].p, acts[k - 1].drawn, states[k];
      assert Step(s, p, drawn, states[k - 1 + 1]);
      NoOverrun(max, states, acts, k, p);
      SelfHolds(s, p, drawn, t, v);
      SumUpdate(s.pc, p, t.pc[p], HoldsW(v));
    }
  }

  lemma NoOverrun(max: nat, states: seq<State>, acts: seq<Action>, k: nat, p: nat)
    requires Execution(states, acts) && Init(max, states[0]) && k < |states|
    ensures p < |states[k].pc| ==> !states[k].pc[p].Overrun?
  {
    if p < |states[k].pc| {
      SearchesStayInside(max, states, acts, k, p);
    }
  }

  /** The value that process `p` drew last, -1 if it has drawn none. */
  function LastDraw(states: seq<State>, acts: seq<Action>, p: nat): int
    requires |acts| <= |states|
    decreases |acts|
  {
    if acts == [] then -1 else
      var k := |acts| - 1;
      if acts[k].p == p && p < |states[k].pc| && states[k].pc[p] == Draw then acts[k].drawn
      else LastDraw(states, acts[..k], p)
  }

  /** The producer holds nothing, or this value. */
  predicate HoldsOnly(pc: PC, v: int) {
    pc.DownEmpty? || pc.LockToPut? || pc.SeekFree? || pc.Put? ==> pc.v == v
  }

  lemma StepLastDraw(s: State, act: Action, t: State, p: nat, v: int)
    requires Step(s, act.p, act.drawn, t) && p < |t.pc| == |s.pc| && HoldsOnly(s.pc[p], v)
    ensures HoldsOnly(t.pc[p], if act.p == p && s.pc[p] == Draw then act.drawn else v)
  {
  }

  lemma {:induction false} HeldIsLastDraw(states: seq<State>, acts: seq<Action>, k: nat, p: nat)
    requires Execution(states, acts) && k < |states| && p < |states[k].pc|
    requires forall q :: 0 <= q < |states[0].pc| ==> states[0].pc[q] == Draw || states[0].pc[q] == DownFill
    ensures HoldsOnly(states[k].pc[p], LastDraw(states, acts[..k], p))
  {
    if k == 0 {
    } else {
      var act := acts[k - 1];
      assert Step(states[k - 1], act.p, act.drawn, states[k - 1 + 1]);
      assert acts[..k][..k - 1] == acts[..k - 1];
      SamePids(states[k - 1], act, states[k]);
      HeldIsLastDraw(states, acts, k - 1, p);
      StepLastDraw(states[k - 1], act, states[k], p, LastDraw(states, acts[..k - 1], p));
    }
  }

  /** What a producer holds, up to and including its write, is its own last draw, a number below 30000. */
  lemma {:induction false} ProducersWriteTheirDraws(max: nat, states: seq<State>, acts: seq<Action>, k: nat, p: nat)
    requires Execution(states, acts) && Init(max, states[0]) && k < |states| && p < |states[k].pc|
    ensures var pc := states[k].pc[p];
      pc.DownEmpty? || pc.LockToPut? || pc.SeekFree? || pc.Put? ==>
        pc.v == LastDraw(states, acts[..k], p) && 0 <= pc.v < 30000
  {
    HeldIsLastDraw(states, acts, k, p);
    ReachableInv(max, states, acts, k);
    assert LocalOk(states[k].data, states[k].pc[p]);
  }

  lemma SamePids(s: State, act: Action, t: State)
    requires Step(s, act.p, act.drawn, t)
    ensures |t.pc| == |s.pc|
  {
  }

  /** In every reachable state, a process is held back exactly by an empty semaphore: no EMPTY or FILL token, or
      another process inside the critical section. A producer may draw any number below 30000. */
  lemma BlockedExactlyWhen(max: nat, states: seq<State>, acts: seq<Action>, k: nat, p: nat)
    requires Execution(states, acts) && Init(max, states[0]) && k < |states| && p < |states[k].pc|
    ensures var s := states[k];
      Ready(s, p) <==>
        !((s.pc[p].DownEmpty? && s.empty == 0) || (s.pc[p].DownFill? && s.fill == 0) ||
          ((s.pc[p].LockToPut? || s.pc[p].LockToTake?) && Sum(s.pc, CriticalW) == 1))
    ensures Ready(states[k], p) ==>
      forall drawn :: 0 <= drawn < 30000 ==> Step(states[k], p, drawn, Exec(states[k], p, drawn))
  {
    ReachableInv(max, states, acts, k);
    assert LocalOk(states[k].data, states[k].pc[p]);
  }

  predicate IsConsumer(pc: PC) {
    !IsProducer(pc) && !pc.Overrun?
  }

  lemma StepRole(s: State, p: nat, drawn: int, t: State, q: nat)
    requires Step(s, p, drawn, t) && q < |s.pc|
    ensures |t.pc| == |s.pc|
    ensures IsProducer(s.pc[q]) && !t.pc[q].Overrun? ==> IsProducer(t.pc[q])
    ensures IsConsumer(s.pc[q]) && !t.pc[q].Overrun? ==> IsConsumer(t.pc[q])
  {
  }

  /** Processes keep their roles. */
  lemma {:induction false} RolesStay(max: nat, states: seq<State>, acts: seq<Action>, k: nat, p: nat)
    requires Execution(states, acts) && Init(max, states[0]) && k < |states| && p < |states[0].pc|
    ensures |states[k].pc| == |states[0].pc|
    ensures IsProducer(states[0].pc[p]) ==> IsProducer(states[k].pc[p])
    ensures IsConsumer(states[0].pc[p]) ==> IsConsumer(states[k].pc[p])
  {
    if k == 0 {
    } else {
      RolesStay(max, states, acts, k - 1, p);
      StepRole(states[k - 1], acts[k - 1].p, acts[k - 1].drawn, states[k], p);
      SearchesStayInside(max, states, acts, k, p);
    }
  }

  /** Deadlock freedom: with a producer, a consumer and at least one slot, some process can always
      execute its next statement. */
  lemma DeadlockFree(max: nat, states: seq<State>, acts: seq<Action>, k: nat, p: nat, c: nat)
    requires Execution(states, acts) && Init(max, states[0]) && k < |states| && 1 <= max
    requires p < |states[0].pc| && IsProducer(states[0].pc[p])
    requires c < |states[0].pc| && IsConsumer(states[0].pc[c])
    ensures exists q :: Ready(states[k], q)
  {
    ReachableInv(max, states, acts, k);
    RolesStay(max, states, acts, k, p);
    RolesStay(max, states, acts, k, c);
    var s := states[k];
    if 0 < Sum(s.pc, CriticalW) {
      var q := SumWitness(s.pc, CriticalW);
      assert Ready(s, q);
    } else if 0 < Sum(s.pc, EmptyTokenW) {
      var q := SumWitness(s.pc, EmptyTokenW);
      assert Ready(s, q);
    } else if 0 < Sum(s.pc, FillTokenW) {
      var q := SumWitness(s.pc, FillTokenW);
      assert Ready(s, q);
    } else {
      SlotsAddUp(s.data);
      SumNonNegative(s.pc, EmptyTokenW);
      SumNonNegative(s.pc, FillTokenW);
      assert 0 < s.empty || 0 < s.fill;
      SumIncludesOne(s.pc, p, EmptyTokenW);
      SumIncludesOne(s.pc, p, FillTokenW);
      SumIncludesOne(s.pc, c, EmptyTokenW);
      SumIncludesOne(s.pc, c, FillTokenW);
      assert Ready(s, p) || Ready(s, c);
    }
  }

  // ------------------------------------------------------------- throughput

  /** How far a process is from writing or clearing a slot. */
  function Distance(max: nat): PC -> int {
    (pc: PC) =>
      match pc
      case UnlockAfterPut => max + 6
      case UnlockAfterTake => max + 6
      case UpFill => max + 5
      case UpEmpty => max + 5
      case Draw => max + 4
      case DownFill => max + 4
      case DownEmpty(_) => max + 3
      case LockToPut(_) => max + 2
      case LockToTake => max + 3
      case SeekFree(_, i) => max - i + 1
      case SeekFull(i) => max - i + 2
      case Fetch(_) => 1
      case Put(_, _) => 0
      case Clear(_, _) => 0
      case Overrun => 0
  }

  predicate Transfers(s: State, p: nat) {
    p < |s.pc| && (s.pc[p].Put? || s.pc[p].Clear?)
  }

  function Transferred(states: seq<State>, acts: seq<Action>): nat
    requires |acts| <= |states|
  {
    if acts == [] then 0
    else (if Transfers(states[0], acts[0].p) then 1 else 0) + Transferred(states[1..], acts[1..])
  }

  /** The process itself comes nearer, or has just transferred an item. */
  lemma SelfDistance(max: nat, s: State, p: nat, drawn: int, t: State)
    requires |s.data| == max && Step(s, p, drawn, t) && !t.pc[p].Overrun?
    ensures t.pc == s.pc[p := t.pc[p]]
    ensures Distance(max)(t.pc[p]) < Distance(max)(s.pc[p]) + if Transfers(s, p) then max + 7 else 0
  {
  }

  lemma StepDistance(max: nat, s: State, p: nat, drawn: int, t: State)
    requires Inv(max, s) && Step(s, p, drawn, t)
    ensures |t.pc| == |s.pc|
    ensures Sum(t.pc, Distance(max)) + 1 <=
      Sum(s.pc, Distance(max)) + if Transfers(s, p) then max + 7 else 0
  {
    StepLocal(max, s, p, drawn, t);
    assert LocalOk(t.data, t.pc[p]);
    SelfDistance(max, s, p, drawn, t);
    SumUpdate(s.pc, p, t.pc[p], Distance(max));
  }

  /** The same count with a price for each transfer. */
  function Paid(price: int, states: seq<State>, acts: seq<Action>): int
    requires |acts| <= |states|
  {
    if acts == [] then 0
    else (if Transfers(states[0], acts[0].p) then price else 0) + Paid(price, states[1..], acts[1..])
  }

  lemma {:induction false} PaidIsProduct(price: int, states: seq<State>, acts: seq<Action>)
    requires |acts| <= |states|
    ensures Paid(price, states, acts) == price * Transferred(states, acts)
  {
    if acts == [] {
    } else {
      PaidIsProduct(price, states[1..], acts[1..]);
      Distribute(price, if Transfers(states[0], acts[0].p) then 1 else 0, Transferred(states[1..], acts[1..]));
    }
  }

  lemma Distribute(c: int, a: int, b: int)
    ensures c * (a + b) == c * a + c * b
  {
  }

  lemma {:induction false} ExecutionDistance(max: nat, states: seq<State>, acts: seq<Action>)
    requires Execution(states, acts) && Inv(max, states[0])
    ensures Inv(max, states[|acts|])
    ensures |acts| + Sum(states[|acts|].pc, Distance(max)) <=
      Sum(states[0].pc, Distance(max)) + Paid(max + 7, states, acts)
  {
    if acts == [] {
    } else {
      ExecutionTail(states, acts);
      StepDistance(max, states[0], acts[0].p, acts[0].drawn, states[1]);
      StepInv(max, states[0], acts[0].p, acts[0].drawn, states[1]);
      ExecutionDistance(max, states[1..], acts[1..]);
    }
  }

  lemma ExecutionTail(states: seq<State>, acts: seq<Action>)
    requires Execution(states, acts) && acts != []
    ensures Execution(states[1..], acts[1..])
    ensures Step(states[0], acts[0].p, acts[0].drawn, states[1])
  {
    assert Step(states[0], acts[0].p, acts[0].drawn, states[0 + 1]);
    forall k | 0 <= k < |acts[1..]|
      ensures Step(states[1..][k], acts[1..][k].p, acts[1..][k].drawn, states[1..][k + 1])
    {
      assert Step(states[k + 1], acts[k + 1].p, acts[k + 1].drawn, states[k + 1 + 1]);
    }
  }

  /** Throughput: whatever the scheduler does, n steps of P processes contain enough writes and
      clearings of slots to pay for them: n <= (MAX + 6) P + (MAX + 7) transfers. */
  lemma {:induction false} Throughput(max: nat, states: seq<State>, acts: seq<Action>)
    requires Execution(states, acts) && Init(max, states[0])
    ensures |acts| <= (max + 6) * |states[0].pc| + (max + 7) * Transferred(states, acts)
  {
    InitInv(max, states[0]);
    ExecutionDistance(max, states, acts);
    PaidIsProduct(max + 7, states, acts);
    SumBounds(states[0].pc, Distance(max), 0, max + 6);
    var s := states[|acts|];
    forall p | 0 <= p < |s.pc|
      ensures 0 <= Distance(max)(s.pc[p])
    {
      assert LocalOk(s.data, s.pc[p]);
    }
    SumNonNegative(s.pc, Distance(max));
  }
}
