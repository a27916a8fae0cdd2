/** The KV-cache admission gate: a weighted monitor with a condition variable
    and cancellation wake-ups (internal/backends/mock_kvbudget.go), driven the
    way Generate drives it (internal/backends/mock.go), where every successful
    acquire is followed by exactly one release of the same cost. */
module KvBudget {
  import opened Common

  // ----- One pass through the monitor -------------------------------------

  datatype Outcome = Granted | TooLarge | ContextErr | MustWait

  /** What acquire decides while it holds the mutex. */
  function Admit(total: int, used: int, cost: int, cancelled: bool): Outcome {
    if cost <= 0 then Granted
    else if cost > total then TooLarge
    else if used + cost <= total then Granted
    else if cancelled then ContextErr
    else MustWait
  }

  function Charge(cost: int): int { if cost > 0 then cost else 0 }

  /** What release leaves in `used`: the subtraction, clamped at zero. */
  function AfterRelease(used: int, cost: int): int {
    if cost <= 0 then used else if used - cost < 0 then 0 else used - cost
  }

  /** What a sleeping caller finds when it has the mutex again. */
  datatype Wake = Wake(used: int, cancelled: bool)

  /** The pool as one object. Interference by other callers during cond.Wait
      arrives as the list of values this caller wakes up to. */
  class Budget {
    const total: int
    var used: int

    constructor (total: int)
      ensures this.total == total && used == 0
    {
      this.total, used := total, 0;
    }

    /** acquire: each trip round the loop is one critical section. MustWait
        means the caller is still asleep when the list of wake-ups runs out. */
    method Acquire(cost: int, cancelled: bool, wakes: seq<Wake>) returns (o: Outcome, ghost woken: nat)
      modifies this`used
      ensures woken <= |wakes|
      ensures var seen := [Wake(old(used), cancelled)] + wakes;
              && o == Admit(total, seen[woken].used, cost, seen[woken].cancelled)
              && (forall k :: 0 <= k < woken ==> Admit(total, seen[k].used, cost, seen[k].cancelled) == MustWait)
              && (o == MustWait ==> woken == |wakes|)
              && used == seen[woken].used + (if o == Granted then Charge(cost) else 0)
      ensures o == TooLarge <==> 0 < cost && cost > total
      ensures var last := ([Wake(old(used), cancelled)] + wakes)[woken];
              && (o == Granted <==> cost <= 0 || (cost <= total && last.used + cost <= total))
              && (o == ContextErr <==> 0 < cost <= total && last.used + cost > total && last.cancelled)
              && (o == MustWait <==> 0 < cost <= total && last.used + cost > total && !last.cancelled)
              && used == (if o == Granted && cost > 0 then last.used + cost else last.used)
      ensures o == Granted && cost > 0 ==> used <= total
    {
      woken := 0;
      if cost <= 0 {
        return Granted, 0;
      }
      if cost > total {
        return TooLarge, 0;
      }
      var ctx := cancelled;
      ghost var seen := [Wake(used, cancelled)] + wakes;
      var i := 0;
      while used + cost > total
        invariant 0 <= i <= |wakes|
        invariant Wake(used, ctx) == seen[i]
        invariant forall k :: 0 <= k < i ==> Admit(total, seen[k].used, cost, seen[k].cancelled) == MustWait
        decreases |wakes| - i
      {
        if ctx {
          return ContextErr, i;
        }
        if i == |wakes| {
          return MustWait, i;
        }
        used, ctx := wakes[i].used, wakes[i].cancelled;
        i := i + 1;
      }
      used := used + cost;
      return Granted, i;
    }

    method Release(cost: int)
      modifies this`used
      ensures used == AfterRelease(old(used), cost)
      ensures used == if cost <= 0 then old(used) else if old(used) < cost then 0 else old(used) - cost
    {
      if cost <= 0 {
        return;
      }
      used := used - cost;
      if used < 0 {
        used := 0;
      }
    }
  }

  // ----- Every interleaving -----------------------------------------------

  /** The AfterFunc registered for a caller's context. */
  datatype Waker = Unregistered | Armed | Firing | Fired | Stopped

  /** Where one Generate call stands. Checking and Parking hold the mutex;
      Broadcasting has returned its tokens and released the mutex but has not
      broadcast yet. */
  datatype Phase = Fresh | WantLock | Checking | Parking | Sleeping | Holding | Broadcasting | Returned

  datatype Caller = Caller(cost: int, cancelled: bool, phase: Phase, waker: Waker)

  datatype State = State(total: int, used: int, lock: Option<nat>, callers: seq<Caller>)

  datatype Action =
    | Enter(t: nat) | Lock(t: nat) | Check(t: nat) | Park(t: nat)
    | Cancel(t: nat) | RunWaker(t: nat) | StopWaker(t: nat)
    | Release(t: nat) | Broadcast(t: nat)

  predicate Init(s: State) {
    && s.used == 0 && s.lock == None
    && forall i :: 0 <= i < |s.callers| ==> s.callers[i].phase == Fresh && s.callers[i].waker == Unregistered
  }

  predicate Enabled(s: State, a: Action) {
    a.t < |s.callers| &&
    var c := s.callers[a.t];
    match a
    case Enter(_) => c.phase == Fresh
    case Lock(_) => c.phase == WantLock && s.lock == None
    case Check(_) => c.phase == Checking
    case Park(_) => c.phase == Parking
    case Cancel(_) => !c.cancelled
    case RunWaker(_) => c.waker == Firing && s.lock == None
    case StopWaker(_) => c.waker == Armed && (c.phase == Holding || c.phase == Broadcasting || c.phase == Returned)
    case Release(_) => c.phase == Holding && (c.cost <= 0 || s.lock == None)
    case Broadcast(_) => c.phase == Broadcasting
  }

  function Woken(c: Caller): Caller {
    if c.phase == Sleeping then c.(phase := WantLock) else c
  }

  function WakeAll(cs: seq<Caller>): (r: seq<Caller>)
    ensures |r| == |cs| && forall i :: 0 <= i < |cs| ==> r[i] == Woken(cs[i])
  {
    seq(|cs|, i requires 0 <= i < |cs| => Woken(cs[i]))
  }

  function Put(s: State, t: nat, c: Caller): State
    requires t < |s.callers|
  {
    s.(callers := s.callers[t := c])
  }

  /** One step of the system; a disabled action changes nothing. */
  function Step(s: State, a: Action): State {
    if !Enabled(s, a) then s else
    var c := s.callers[a.t];
    match a
    case Enter(t) =>
      if c.cost <= 0 then Put(s, t, c.(phase := Holding))
      else if c.cost > s.total then Put(s, t, c.(phase := Returned))
      else Put(s, t, c.(phase := WantLock, waker := if c.cancelled then Firing else Armed))
    case Lock(t) => Put(s, t, c.(phase := Checking)).(lock := Some(t))
    case Check(t) =>
      (match Admit(s.total, s.used, c.cost, c.cancelled)
       case Granted => Put(s, t, c.(phase := Holding)).(lock := None, used := s.used + Charge(c.cost))
       case MustWait => Put(s, t, c.(phase := Parking))
       case _ => Put(s, t, c.(phase := Returned)).(lock := None))
    case Park(t) => Put(s, t, c.(phase := Sleeping)).(lock := None)
    case Cancel(t) => Put(s, t, c.(cancelled := true, waker := if c.waker == Armed then Firing else c.waker))
    case RunWaker(t) => s.(callers := WakeAll(s.callers[t := c.(waker := Fired)]))
    case StopWaker(t) => Put(s, t, c.(waker := Stopped))
    case Release(t) =>
      if c.cost <= 0 then Put(s, t, c.(phase := Returned))
      else Put(s, t, c.(phase := Broadcasting)).(used := AfterRelease(s.used, c.cost))
    case Broadcast(t) => s.(callers := WakeAll(s.callers[t := c.(phase := Returned)]))
  }

  /** Entering, in numbers: nothing to reserve is held at once, more than the whole
      pool is refused, anything else waits for the mutex. */
  lemma EnterTable(s: State, t: nat)
    requires t < |s.callers| && s.callers[t].phase == Fresh
    ensures var c, c' := s.callers[t], Step(s, Enter(t)).callers[t];
            && (c'.phase == Holding <==> c.cost <= 0)
            && (c'.phase == Returned <==> c.cost > 0 && c.cost > s.total)
            && (c'.phase == WantLock <==> 0 < c.cost <= s.total)
            && (c'.phase == WantLock ==> c'.waker == if c.cancelled then Firing else Armed)
            && Step(s, Enter(t)).used == s.used
  {
  }

  /** Looking at the pool, in numbers: the caller holds its tokens if they fit, returns
      if its context is cancelled, and goes to sleep otherwise. */
  lemma CheckTable(s: State, t: nat)
    requires t < |s.callers| && s.callers[t].phase == Checking && 0 < s.callers[t].cost <= s.total
    ensures var c, s' := s.callers[t], Step(s, Check(t));
            && (s'.callers[t].phase == Holding <==> s.used + c.cost <= s.total)
            && (s'.callers[t].phase == Returned <==> s.used + c.cost > s.total && c.cancelled)
            && (s'.callers[t].phase == Parking <==> s.used + c.cost > s.total && !c.cancelled)
            && s'.used == (if s.used + c.cost <= s.total then s.used + c.cost else s.used)
            && (s'.callers[t].phase != Parking ==> s'.lock == None)
  {
  }

  /** Nobody gives up: a call returns only when it asks for more than the whole pool,
      finds its context cancelled and no room, or has handed back what it held. */
  lemma ReturnsOnly(s: State, a: Action, t: nat)
    requires Inv(s) && t < |s.callers| == |Step(s, a).callers|
    requires s.callers[t].phase != Returned && Step(s, a).callers[t].phase == Returned
    ensures var c := s.callers[t];
            || (a == Enter(t) && c.cost > 0 && c.cost > s.total)
            || (a == Check(t) && c.cancelled && s.used + c.cost > s.total)
            || (a == Release(t) && c.cost <= 0)
            || a == Broadcast(t)
  {
    assert CallerOk(s, s.callers[t]);
  }

  /** Going to sleep gives the mutex up, and taking it needs it free. */
  lemma MutexTable(s: State, t: nat)
    requires t < |s.callers|
    ensures s.callers[t].phase == Parking ==>
              Step(s, Park(t)) == s.(lock := None, callers := s.callers[t := s.callers[t].(phase := Sleeping)])
    ensures s.callers[t].phase == WantLock && s.lock == None ==>
              Step(s, Lock(t)) == s.(lock := Some(t), callers := s.callers[t := s.callers[t].(phase := Checking)])
    ensures s.lock != None ==> Step(s, Lock(t)) == s
  {
  }

  /** Only a positive cost is handed back, and it is what was reserved. */
  lemma ReleaseTable(s: State, t: nat)
    requires Inv(s) && t < |s.callers| && s.callers[t].phase == Holding
    ensures var c, s' := s.callers[t], Step(s, Release(t));
            c.cost <= 0 || s.lock == None ==>
              && s'.used == (if c.cost > 0 then s.used - c.cost else s.used)
              && s'.callers[t].phase == (if c.cost > 0 then Broadcasting else Returned)
  {
    ClampUnreachable(s, t);
  }

  /** Tokens held are costs, not less. */
  lemma HeldInNumbers(c: Caller)
    ensures HeldBy(c) == if c.phase == Holding && c.cost > 0 then c.cost else 0
  {
  }

  function Exec(s: State, run: seq<Action>): State
    decreases |run|
  {
    if run == [] then s else Exec(Step(s, run[0]), run[1..])
  }

  // ----- The invariant ----------------------------------------------------

  function HeldBy(c: Caller): int { if c.phase == Holding then Charge(c.cost) else 0 }

  /** Tokens reserved by the calls that currently hold their reservation. */
  function Held(cs: seq<Caller>): int { SumOf(cs, HeldBy) }

  predicate InFlight(p: Phase) {
    p == WantLock || p == Checking || p == Parking || p == Sleeping || p == Broadcasting
  }

  predicate CallerOk(s: State, c: Caller) {
    && (InFlight(c.phase) ==> 0 < c.cost <= s.total)
    && (c.phase == Fresh ==> c.waker == Unregistered)
    && (c.waker == Armed ==> !c.cancelled)
    && (c.phase == WantLock || c.phase == Checking ==>
          if c.cancelled then c.waker == Firing || c.waker == Fired else c.waker == Armed)
    && (c.phase == Parking || c.phase == Sleeping ==> c.waker == if c.cancelled then Firing else Armed)
    && (c.phase == Parking ==> s.used + c.cost > s.total)
  }

  predicate LockOk(s: State) {
    && (s.lock.Some? ==> s.lock.value < |s.callers|)
    && forall i :: 0 <= i < |s.callers| ==>
        (s.lock == Some(i) <==> s.callers[i].phase == Checking || s.callers[i].phase == Parking)
  }

  /** Some release has freed tokens and not yet broadcast. */
  predicate ReleasePending(s: State) {
    exists r :: 0 <= r < |s.callers| && s.callers[r].phase == Broadcasting
  }

  predicate NoLostRelease(s: State) {
    forall i :: 0 <= i < |s.callers| && s.callers[i].phase == Sleeping && s.used + s.callers[i].cost <= s.total
      ==> ReleasePending(s)
  }

  predicate Inv(s: State) {
    && s.used == Held(s.callers)
    && (s.used == 0 || s.used <= s.total)
    && (forall i :: 0 <= i < |s.callers| ==> CallerOk(s, s.callers[i]))
    && LockOk(s)
    && NoLostRelease(s)
  }

  // ----- Safety -----------------------------------------------------------

  lemma HeldPut(s: State, t: nat, c: Caller)
    requires t < |s.callers|
    ensures Held(Put(s, t, c).callers) == Held(s.callers) - HeldBy(s.callers[t]) + HeldBy(c)
  {
    SumUpdate(s.callers, t, c, HeldBy);
  }

  lemma HeldWake(cs: seq<Caller>)
    ensures Held(WakeAll(cs)) == Held(cs)
  {
    SumPointwise(cs, WakeAll(cs), HeldBy);
  }

  /** What one caller holds never exceeds what is in use, so the clamp in
      release never changes anything. */
  lemma ClampUnreachable(s: State, t: nat)
    requires Inv(s) && t < |s.callers| && s.callers[t].phase == Holding
    ensures AfterRelease(s.used, s.callers[t].cost) == s.used - Charge(s.callers[t].cost) >= 0
  {
    SumAtLeast(s.callers, t, HeldBy);
    SumNonNegative(s.callers, HeldBy);
  }

  predicate Inside(c: Caller) { c.phase == Checking || c.phase == Parking }

  /** Only caller t moved, and it took, kept or left the mutex accordingly. */
  predicate Moved(s: State, s': State, t: nat) {
    && t < |s.callers| == |s'.callers| && s'.total == s.total && s'.callers == s.callers[t := s'.callers[t]]
    && (s'.used == s.used || s.lock == None || s.lock == Some(t))
    && (|| (s'.lock == s.lock && Inside(s'.callers[t]) == Inside(s.callers[t]))
        || (s.lock == None && s'.lock == Some(t) && Inside(s'.callers[t]))
        || (s.lock == Some(t) && s'.lock == None && !Inside(s'.callers[t])))
  }

  lemma MovedCallersOk(s: State, s': State, t: nat)
    requires Moved(s, s', t) && LockOk(s) && CallerOk(s', s'.callers[t])
    requires forall i :: 0 <= i < |s.callers| ==> CallerOk(s, s.callers[i])
    ensures forall i :: 0 <= i < |s'.callers| ==> CallerOk(s', s'.callers[i])
    ensures LockOk(s')
  {
    forall i | 0 <= i < |s'.callers|
      ensures CallerOk(s', s'.callers[i])
    {
      if i != t {
        assert s'.callers[i] == s.callers[i] && CallerOk(s, s.callers[i]);
      }
    }
  }

  lemma MovedKeepsWakeups(s: State, s': State, t: nat)
    requires Moved(s, s', t) && NoLostRelease(s)
    requires s.callers[t].phase == Broadcasting ==> s'.callers[t].phase == Broadcasting
    requires s'.used >= s.used || s'.callers[t].phase == Broadcasting
    requires s'.callers[t].phase == Sleeping ==>
               (s.callers[t].phase == Sleeping && s'.callers[t].cost == s.callers[t].cost)
               || s'.used + s'.callers[t].cost > s'.total
    ensures NoLostRelease(s')
  {
    KeepsPending(s, s', t);
    if s'.callers[t].phase == Broadcasting {
      assert ReleasePending(s');
    }
  }

  lemma MovedKeepsInv(s: State, s': State, t: nat)
    requires Inv(s) && Moved(s, s', t) && CallerOk(s', s'.callers[t])
    requires s.callers[t].phase == Broadcasting ==> s'.callers[t].phase == Broadcasting
    requires s'.used >= s.used || s'.callers[t].phase == Broadcasting
    requires s'.callers[t].phase == Sleeping ==>
               (s.callers[t].phase == Sleeping && s'.callers[t].cost == s.callers[t].cost)
               || s'.used + s'.callers[t].cost > s'.total
    requires s'.used == s.used - HeldBy(s.callers[t]) + HeldBy(s'.callers[t])
    requires s'.used == 0 || s'.used <= s'.total
    ensures Inv(s')
  {
    HeldPut(s, t, s'.callers[t]);
    MovedCallersOk(s, s', t);
    MovedKeepsWakeups(s, s', t);
  }

  lemma EnterKeepsInv(s: State, t: nat)
    requires Inv(s) && Enabled(s, Enter(t))
    ensures Inv(Step(s, Enter(t)))
  {
    MovedKeepsInv(s, Step(s, Enter(t)), t);
  }

  /** Cancelling a context, and cancelling its AfterFunc. */
  lemma ContextStepKeepsInv(s: State, a: Action)
    requires Inv(s) && Enabled(s, a)
    requires a.Cancel? || a.StopWaker?
    ensures Inv(Step(s, a))
  {
    assert CallerOk(s, s.callers[a.t]);
    MovedKeepsInv(s, Step(s, a), a.t);
  }

  /** Taking the mutex, and giving it up by going to sleep. */
  lemma MutexStepKeepsInv(s: State, a: Action)
    requires Inv(s) && Enabled(s, a)
    requires a.Lock? || a.Park?
    ensures Inv(Step(s, a))
  {
    assert CallerOk(s, s.callers[a.t]);
    MovedKeepsInv(s, Step(s, a), a.t);
  }

  lemma CheckKeepsInv(s: State, t: nat)
    requires Inv(s) && Enabled(s, Check(t))
    ensures Inv(Step(s, Check(t)))
  {
    assert CallerOk(s, s.callers[t]);
    SumNonNegative(s.callers, HeldBy);
    MovedKeepsInv(s, Step(s, Check(t)), t);
  }

  lemma ReleaseKeepsInv(s: State, t: nat)
    requires Inv(s) && Enabled(s, Release(t))
    ensures Inv(Step(s, Release(t)))
  {
    ClampUnreachable(s, t);
    assert CallerOk(s, s.callers[t]);
    MovedKeepsInv(s, Step(s, Release(t)), t);
  }

  /** A broadcast empties the wait list, so nobody is left asleep. */
  lemma WakeKeepsInv(s: State, a: Action)
    requires Inv(s) && Enabled(s, a)
    requires a.RunWaker? || a.Broadcast?
    ensures Inv(Step(s, a))
  {
    var c := s.callers[a.t];
    var moved := if a.RunWaker? then c.(waker := Fired) else c.(phase := Returned);
    HeldPut(s, a.t, moved);
    HeldWake(s.callers[a.t := moved]);
    WokenCallersOk(s, Step(s, a), a.t, moved);
  }

  lemma WokenCallersOk(s: State, s': State, t: nat, moved: Caller)
    requires t < |s.callers| && s' == s.(callers := WakeAll(s.callers[t := moved]))
    requires forall i :: 0 <= i < |s.callers| ==> CallerOk(s, s.callers[i])
    requires CallerOk(s, Woken(moved)) && LockOk(s)
    requires moved.phase == s.callers[t].phase || (s.callers[t].phase == Broadcasting && moved.phase == Returned)
    ensures forall i :: 0 <= i < |s'.callers| ==> CallerOk(s', s'.callers[i]) && s'.callers[i].phase != Sleeping
    ensures LockOk(s')
  {
    forall i | 0 <= i < |s'.callers|
      ensures CallerOk(s', s'.callers[i]) && s'.callers[i].phase != Sleeping
    {
      assert s'.callers[i] == Woken(if i == t then moved else s.callers[i]);
      assert CallerOk(s, s.callers[i]);
    }
  }

  lemma StepKeepsInv(s: State, a: Action)
    requires Inv(s)
    ensures Inv(Step(s, a))
  {
    if Enabled(s, a) {
      match a {
        case Check(t) => CheckKeepsInv(s, t);
        case Release(t) => ReleaseKeepsInv(s, t);
        case Lock(_) => MutexStepKeepsInv(s, a);
        case Park(_) => MutexStepKeepsInv(s, a);
        case RunWaker(_) => WakeKeepsInv(s, a);
        case Broadcast(_) => WakeKeepsInv(s, a);
        case Enter(t) => EnterKeepsInv(s, t);
        case Cancel(_) => ContextStepKeepsInv(s, a);
        case StopWaker(_) => ContextStepKeepsInv(s, a);
      }
    }
  }

  /** A pending broadcast stays pending unless its own caller moves. */
  lemma KeepsPending(s: State, s': State, t: nat)
    requires t < |s.callers| == |s'.callers|
    requires forall i :: 0 <= i < |s.callers| && i != t ==> s'.callers[i] == s.callers[i]
    requires s.callers[t].phase == Broadcasting ==> s'.callers[t].phase == Broadcasting
    ensures ReleasePending(s) ==> ReleasePending(s')
  {
    if ReleasePending(s) {
      var r :| 0 <= r < |s.callers| && s.callers[r].phase == Broadcasting;
      assert s'.callers[r].phase == Broadcasting;
    }
  }

  lemma InitInv(s: State)
    requires Init(s)
    ensures Inv(s)
  {
    SumZero(s.callers, HeldBy);
  }

  lemma {:induction false} ExecKeepsInv(s: State, run: seq<Action>)
    requires Inv(s)
    ensures Inv(Exec(s, run))
    decreases |run|
  {
    if run != [] {
      StepKeepsInv(s, run[0]);
      ExecKeepsInv(Step(s, run[0]), run[1..]);
    }
  }

  /** In every interleaving the pool is exactly the reservations held and is
      never oversubscribed. */
  lemma BudgetNeverOversubscribed(s: State, run: seq<Action>)
    requires Init(s)
    ensures var e := Exec(s, run);
            e.used == Held(e.callers) && 0 <= e.used && (e.used == 0 || e.used <= e.total)
  {
    InitInv(s);
    ExecKeepsInv(s, run);
    SumNonNegative(Exec(s, run).callers, HeldBy);
  }

  /** No wake-up is lost: a sleeper with room, or whose context is cancelled,
      always has a broadcast on its way. */
  lemma NoLostWakeup(s: State, run: seq<Action>, t: nat)
    requires Init(s)
    requires var e := Exec(s, run); t < |e.callers| && e.callers[t].phase == Sleeping
    ensures var e := Exec(s, run);
            && (e.used + e.callers[t].cost <= e.total ==> ReleasePending(e))
            && (e.callers[t].cancelled ==> e.callers[t].waker == Firing)
  {
    InitInv(s);
    ExecKeepsInv(s, run);
  }

  // ----- Cancellation -----------------------------------------------------

  /** Cancelling a context starts its waker if it is armed; a call that no longer waits
      stops it. */
  lemma ContextTable(s: State, t: nat)
    requires t < |s.callers|
    ensures var c := s.callers[t];
            && (!c.cancelled ==>
                 Step(s, Cancel(t)).callers == s.callers[t := c.(cancelled := true, waker := if c.waker == Armed then Firing else c.waker)])
            && (c.waker == Armed && (c.phase == Holding || c.phase == Broadcasting || c.phase == Returned) ==>
                 Step(s, StopWaker(t)).callers == s.callers[t := c.(waker := Stopped)])
  {
  }

  /** A waker that is due runs when the mutex is free, and wakes every sleeper. */
  lemma WakerTable(s: State, t: nat)
    requires t < |s.callers| && s.callers[t].waker == Firing && s.lock == None
    ensures var s' := Step(s, RunWaker(t));
            && |s'.callers| == |s.callers| && s'.callers[t].waker == Fired && s'.used == s.used
            && forall i :: 0 <= i < |s.callers| ==>
                 s'.callers[i].phase == if s.callers[i].phase == Sleeping then WantLock else s.callers[i].phase
  {
  }

  lemma OneStep(s: State, a: Action)
    ensures Exec(s, [a]) == Step(s, a)
  {
    assert |[a][1..]| == 0;
  }

  lemma TwoSteps(s: State, a: Action, b: Action)
    ensures Exec(s, [a, b]) == Step(Step(s, a), b)
  {
    OneStep(Step(s, a), b);
    assert [a, b][1..] == [b];
  }

  /** Whoever has the mutex goes on: it has left it, or is about to go to sleep. */
  lemma HolderMoves(s: State, u: nat)
    requires Inv(s) && s.lock == Some(u)
    ensures u < |s.callers| && (s.callers[u].phase == Checking || s.callers[u].phase == Parking)
    ensures var s' := Step(s, if s.callers[u].phase == Checking then Check(u) else Park(u));
            && s'.callers == s.callers[u := s'.callers[u]]
            && (s'.lock == None || (s'.lock == Some(u) && s'.callers[u].phase == Parking && s.callers[u].phase == Checking))
  {
  }

  /** So the mutex becomes free, leaving a sleeper asleep. */
  lemma FreesMutex(s: State, t: nat) returns (run: seq<Action>)
    requires Inv(s) && t < |s.callers| && s.callers[t].phase == Sleeping
    ensures |run| <= 2 && forall i :: 0 <= i < |run| ==> run[i].Check? || run[i].Park?
    ensures var e := Exec(s, run);
            Inv(e) && e.lock == None && |e.callers| == |s.callers| && e.callers[t] == s.callers[t]
  {
    run := [];
    if s.lock.Some? {
      var u := s.lock.value;
      HolderMoves(s, u);
      var a := if s.callers[u].phase == Checking then Check(u) else Park(u);
      var s1 := Step(s, a);
      StepKeepsInv(s, a);
      if s1.lock.Some? {
        HolderMoves(s1, u);
        StepKeepsInv(s1, Park(u));
        TwoSteps(s, a, Park(u));
        run := [a, Park(u)];
      } else {
        OneStep(s, a);
        run := [a];
      }
    }
  }

  /** With the mutex free: woken by its own waker, the caller looks again. */
  lemma WokenLooks(s: State, t: nat)
    requires t < |s.callers| && s.lock == None && 0 < s.callers[t].cost <= s.total
    requires s.callers[t].phase == Sleeping && s.callers[t].cancelled && s.callers[t].waker == Firing
    ensures var s3 := Step(Step(Step(s, RunWaker(t)), Lock(t)), Check(t));
            t < |s3.callers| && (s3.callers[t].phase == Holding || s3.callers[t].phase == Returned)
  {
    var s1 := Step(s, RunWaker(t));
    assert s1.callers[t].phase == WantLock && s1.callers[t].cancelled && s1.lock == None;
    var s2 := Step(s1, Lock(t));
    MutexTable(s1, t);
    CheckTable(s2, t);
  }

  /** A cancelled wait ends: without anybody handing back a token, a sleeper whose
      context is cancelled can be woken by its own waker and either get its tokens or
      return. */
  lemma CancelledWaitEnds(s: State, t: nat) returns (run: seq<Action>)
    requires Inv(s) && t < |s.callers| && s.callers[t].phase == Sleeping && s.callers[t].cancelled
    ensures forall i :: 0 <= i < |run| ==> !run[i].Release? && !run[i].Broadcast?
    ensures var e := Exec(s, run);
            t < |e.callers| && (e.callers[t].phase == Holding || e.callers[t].phase == Returned)
  {
    var first := FreesMutex(s, t);
    var s0 := Exec(s, first);
    assert CallerOk(s0, s0.callers[t]);
    WokenLooks(s0, t);
    var rest := [RunWaker(t)] + [Lock(t), Check(t)];
    OneStep(s0, RunWaker(t));
    TwoSteps(Step(s0, RunWaker(t)), Lock(t), Check(t));
    ExecConcat(s0, [RunWaker(t)], [Lock(t), Check(t)]);
    ExecConcat(s, first, rest);
    run := first + rest;
  }

  // ----- Termination ------------------------------------------------------

  function Rank(c: Caller): int {
    (match c.phase
     case Fresh => 7 case WantLock => 6 case Checking => 5 case Parking => 4
     case Sleeping => 3 case Holding => 2 case Broadcasting => 1 case Returned => 0)
    + (if c.cancelled then 0 else 1)
  }

  /** Broadcasts this caller may still cause: its own, and its waker's. */
  function Calls(c: Caller): int {
    (if c.phase == Returned then 0 else 1)
    + (if c.waker == Unregistered || c.waker == Armed || c.waker == Firing then 1 else 0)
  }

  /** Every step that is enabled decreases the pair (broadcasts left, ranks),
      so no schedule runs for ever. */
  lemma EnabledStepDecreases(s: State, a: Action)
    requires Inv(s) && Enabled(s, a)
    ensures var s' := Step(s, a);
            && 0 <= SumOf(s'.callers, Calls) <= SumOf(s.callers, Calls)
            && 0 <= SumOf(s'.callers, Rank)
            && (SumOf(s'.callers, Calls) == SumOf(s.callers, Calls) ==> SumOf(s'.callers, Rank) < SumOf(s.callers, Rank))
  {
    var s' := Step(s, a);
    SumNonNegative(s'.callers, Calls);
    SumNonNegative(s'.callers, Rank);
    if a.RunWaker? || a.Broadcast? {
      WakeStepSpendsBroadcast(s, a);
    } else {
      OwnStepDecreases(s, a);
      var c' := s'.callers[a.t];
      SumUpdate(s.callers, a.t, c', Calls);
      SumUpdate(s.callers, a.t, c', Rank);
    }
  }

  lemma WakeStepSpendsBroadcast(s: State, a: Action)
    requires Enabled(s, a) && (a.RunWaker? || a.Broadcast?)
    ensures SumOf(Step(s, a).callers, Calls) < SumOf(s.callers, Calls)
  {
    var c := s.callers[a.t];
    var moved := if a.RunWaker? then c.(waker := Fired) else c.(phase := Returned);
    SumUpdate(s.callers, a.t, moved, Calls);
    SumPointwise(s.callers[a.t := moved], Step(s, a).callers, Calls);
  }

  lemma OwnStepDecreases(s: State, a: Action)
    requires Inv(s) && Enabled(s, a) && !a.RunWaker? && !a.Broadcast?
    ensures |Step(s, a).callers| == |s.callers|
    ensures var c, c' := s.callers[a.t], Step(s, a).callers[a.t];
            Step(s, a).callers == s.callers[a.t := c'] &&
            (Calls(c') < Calls(c) || (Calls(c') == Calls(c) && Rank(c') < Rank(c)))
  {
    assert CallerOk(s, s.callers[a.t]);
  }

  predicate AllReturned(s: State) {
    forall i :: 0 <= i < |s.callers| ==> s.callers[i].phase == Returned
  }

  /** There is no deadlock: while a call is unfinished, some step other than a
      cancellation can be taken. In particular a sleeper always has a holder or
      a broadcast to wait for. */
  lemma Progress(s: State) returns (a: Action)
    requires Inv(s) && !AllReturned(s)
    ensures Enabled(s, a) && !a.Cancel?
  {
    if s.lock.Some? {
      var t := s.lock.value;
      a := if s.callers[t].phase == Checking then Check(t) else Park(t);
    } else {
      var t :| 0 <= t < |s.callers| && s.callers[t].phase != Returned;
      match s.callers[t].phase {
        case Fresh => a := Enter(t);
        case WantLock => a := Lock(t);
        case Holding => a := Release(t);
        case Broadcasting => a := Broadcast(t);
        case Sleeping =>
          if s.used + s.callers[t].cost <= s.total {
            var r :| 0 <= r < |s.callers| && s.callers[r].phase == Broadcasting;
            a := Broadcast(r);
          } else {
            var h := SumPositive(s.callers, HeldBy);
            a := Release(h);
          }
        case Checking => assert false;
        case Parking => assert false;
      }
    }
  }

  /** From an invariant state the calls can be run to completion. */
  lemma {:induction false} FinishFrom(s: State) returns (run: seq<Action>)
    requires Inv(s)
    ensures AllReturned(Exec(s, run))
    ensures forall i :: 0 <= i < |run| ==> !run[i].Cancel?
    decreases SumOf(s.callers, Calls), SumOf(s.callers, Rank)
  {
    if AllReturned(s) {
      run := [];
    } else {
      var a := Progress(s);
      EnabledStepDecreases(s, a);
      StepKeepsInv(s, a);
      SumNonNegative(s.callers, Calls);
      SumNonNegative(s.callers, Rank);
      var rest := FinishFrom(Step(s, a));
      run := [a] + rest;
    }
  }

  lemma {:induction false} ExecConcat(s: State, first: seq<Action>, second: seq<Action>)
    ensures Exec(s, first + second) == Exec(Exec(s, first), second)
    decreases |first|
  {
    if first == [] {
      assert first + second == second;
    } else {
      assert (first + second)[1..] == first[1..] + second;
      ExecConcat(Step(s, first[0]), first[1..], second);
    }
  }

  /** Whatever has happened so far, every call can still be driven to its
      return, and without cancelling anybody. */
  lemma EveryRunCanFinish(s: State, sofar: seq<Action>) returns (rest: seq<Action>)
    requires Init(s)
    ensures AllReturned(Exec(s, sofar + rest))
    ensures forall i :: 0 <= i < |rest| ==> !rest[i].Cancel?
  {
    InitInv(s);
    ExecKeepsInv(s, sofar);
    rest := FinishFrom(Exec(s, sofar));
    ExecConcat(s, sofar, rest);
  }
}
