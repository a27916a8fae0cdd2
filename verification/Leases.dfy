/** The engine lease registry (internal/engines/registry.go) and the cadence at
    which an engine's agent renews (internal/engineagent/agent.go). Times and
    durations are in nanoseconds, as in the source. */
module Leases {
  import opened Common

  datatype EngineState = Unspecified | Assembling | Serving | Degraded | Draining | Lost

  /** A stored engine; info stands for everything the engine says about itself. */
  datatype Engine = Engine(state: EngineState, info: string, registeredAt: int, lastSeen: int, expires: int)

  type Table = map<string, Engine>

  datatype RegistryError = NoId | SelfReportedLost | Unknown | StoreFailed

  // ----- One call ---------------------------------------------------------

  /** The record Register writes. Whatever timestamps the caller claims in `e` are
      replaced; a prior DRAINING wins over the reported state. */
  function Renewed(prior: Option<Engine>, e: Engine, now: int, lease: int): Engine {
    var reported := if e.state == Unspecified then Assembling else e.state;
    Engine(
      if prior.Some? && prior.value.state == Draining then Draining else reported,
      e.info,
      if prior.Some? then prior.value.registeredAt else now,
      now,
      now + lease)
  }

  predicate Overdue(e: Engine, now: int) { e.state != Lost && now > e.expires }

  function Expired(e: Engine, now: int): Engine {
    if Overdue(e, now) then e.(state := Lost) else e
  }

  /** A sweep that got to every engine except those in skipped. */
  function Swept(m: Table, now: int, skipped: set<string>): Table {
    map id | id in m :: if id in skipped then m[id] else Expired(m[id], now)
  }

  /** The engines such a sweep moves to LOST. */
  function Hit(m: Table, now: int, skipped: set<string>): set<string> {
    set id | id in m && id !in skipped && Overdue(m[id], now)
  }

  /** Getting to one more engine. */
  lemma SweepOneMore(m: Table, now: int, rest: set<string>, id: string)
    requires id in m && id !in rest
    ensures id in Swept(m, now, rest + {id}) && Swept(m, now, rest + {id})[id] == m[id]
    ensures Overdue(m[id], now) ==>
              && Swept(m, now, rest) == Swept(m, now, rest + {id})[id := m[id].(state := Lost)]
              && |Hit(m, now, rest)| == |Hit(m, now, rest + {id})| + 1
    ensures !Overdue(m[id], now) ==>
              && Swept(m, now, rest) == Swept(m, now, rest + {id})
              && Hit(m, now, rest) == Hit(m, now, rest + {id})
  {
    if Overdue(m[id], now) {
      assert Hit(m, now, rest) == Hit(m, now, rest + {id}) + {id};
    }
  }

  lemma SweepNone(m: Table, now: int, skipped: set<string>)
    requires m.Keys <= skipped
    ensures Swept(m, now, skipped) == m && Hit(m, now, skipped) == {}
  {
  }

  predicate Distinct(order: seq<string>) {
    forall i, j :: 0 <= i < j < |order| ==> order[i] != order[j]
  }

  /** The ids still to be visited. */
  function From(order: seq<string>, i: nat): set<string>
    requires i <= |order|
  {
    set j | i <= j < |order| :: order[j]
  }

  lemma FromStep(order: seq<string>, i: nat)
    requires i < |order| && Distinct(order)
    ensures From(order, i) == From(order, i + 1) + {order[i]} && order[i] !in From(order, i + 1)
  {
  }

  class EngineRegistry {
    var engines: Table
    const lease: int

    constructor (d: int)
      ensures engines == map[] && lease == if d > 0 then d else DEFAULT_LEASE
    {
      engines := map[];
      lease := if d > 0 then d else DEFAULT_LEASE;
    }

    /** The prior record; an unreadable store looks the same as an unknown id. */
    function Lookup(id: string, listOk: bool): Option<Engine>
      reads this
    {
      if listOk && id in engines then Some(engines[id]) else None
    }

    method Register(id: string, e: Engine, now: int, listOk: bool, putOk: bool) returns (err: Option<RegistryError>)
      modifies this`engines
      ensures err == (if id == "" then Some(NoId) else if e.state == Lost then Some(SelfReportedLost)
                      else if !putOk then Some(StoreFailed) else None)
      ensures engines == Apply(old(engines), lease, Event(now, Op.Register(id, e, listOk, putOk)))
    {
      if id == "" {
        return Some(NoId);
      }
      if e.state == Lost {
        return Some(SelfReportedLost);
      }
      var r := e;
      if r.state == Unspecified {
        r := r.(state := Assembling);
      }
      var prior := Lookup(id, listOk);
      r := r.(registeredAt := now);
      if prior.Some? {
        r := r.(registeredAt := prior.value.registeredAt);
        if prior.value.state == Draining {
          r := r.(state := Draining);
        }
      }
      r := r.(lastSeen := now, expires := now + lease);
      if !putOk {
        return Some(StoreFailed);
      }
      engines := engines[id := r];
      return None;
    }

    method SetState(id: string, state: EngineState, now: int, listOk: bool, putOk: bool) returns (err: Option<RegistryError>)
      modifies this`engines
      ensures err == (if !listOk || id !in old(engines) then Some(Unknown) else if !putOk then Some(StoreFailed) else None)
      ensures engines == Apply(old(engines), lease, Event(now, Op.SetState(id, state, listOk, putOk)))
    {
      var cur := Lookup(id, listOk);
      if cur.None? {
        return Some(Unknown);
      }
      if !putOk {
        return Some(StoreFailed);
      }
      engines := engines[id := cur.value.(state := state)];
      return None;
    }

    /** Sweeps the listed engines; a failed write ends the sweep early. */
    method ExpireOverdue(now: int, order: seq<string>, putOk: string -> bool)
      returns (changed: nat, failed: bool, ghost skipped: set<string>)
      requires forall id :: id in order <==> id in engines
      requires Distinct(order)
      modifies this`engines
      ensures engines == Swept(old(engines), now, skipped)
      ensures !failed ==> skipped == {}
      ensures failed ==> exists id :: id in skipped && id in old(engines) && !putOk(id)
      ensures changed == |Hit(old(engines), now, skipped)|
    {
      changed, failed, skipped := 0, false, From(order, 0);
      ghost var was := engines;
      assert forall id :: id in was ==> id in From(order, 0);
      SweepNone(was, now, skipped);
      for i := 0 to |order|
        invariant skipped == From(order, i)
        invariant engines == Swept(was, now, skipped)
        invariant changed == |Hit(was, now, skipped)|
      {
        var id := order[i];
        ghost var rest := From(order, i + 1);
        FromStep(order, i);
        SweepOneMore(was, now, rest, id);
        var e := engines[id];
        if e.state != Lost && now > e.expires {
          if !putOk(id) {
            failed := true;
            return;
          }
          engines := engines[id := e.(state := Lost)];
          changed := changed + 1;
        }
        skipped := rest;
      }
    }
  }

  // ----- Runs -------------------------------------------------------------

  /** listOk and putOk say whether the store can be read and written. */
  datatype Op =
    | Register(id: string, e: Engine, listOk: bool, putOk: bool)
    | SetState(id: string, state: EngineState, listOk: bool, putOk: bool)
    | Sweep(skipped: set<string>)

  datatype Event = Event(at: int, op: Op)

  /** The registration reaches the store. */
  predicate Renews(ev: Event, id: string) {
    ev.op.Register? && ev.op.id == id && id != "" && ev.op.e.state != Lost && ev.op.putOk
  }

  predicate Moves(ev: Event, id: string) {
    ev.op.SetState? && ev.op.id == id && ev.op.listOk && ev.op.putOk
  }

  function Apply(m: Table, lease: int, ev: Event): Table {
    match ev.op
    case Register(id, e, listOk, _) =>
      if !Renews(ev, id) then m
      else m[id := Renewed(if listOk && id in m then Some(m[id]) else None, e, ev.at, lease)]
    case SetState(id, state, _, _) =>
      if Moves(ev, id) && id in m then m[id := m[id].(state := state)] else m
    case Sweep(skipped) => Swept(m, ev.at, skipped)
  }

  function Exec(m: Table, lease: int, h: seq<Event>): Table
    decreases |h|
  {
    if h == [] then m else Apply(Exec(m, lease, h[..|h| - 1]), lease, h[|h| - 1])
  }

  /** The store can be read throughout. */
  predicate Readable(h: seq<Event>) {
    forall k :: 0 <= k < |h| && h[k].op.Register? ==> h[k].op.listOk
  }

  /** SetState is used only to drain, as the drain handler does. */
  predicate OnlyDrains(h: seq<Event>) {
    forall k :: 0 <= k < |h| && h[k].op.SetState? ==> h[k].op.state == Draining
  }

  // ----- Registry invariants ----------------------------------------------

  /** When the engine last registered, according to the history alone. */
  function LastRenewal(h: seq<Event>, id: string): Option<int> {
    if h == [] then None
    else if Renews(h[|h| - 1], id) then Some(h[|h| - 1].at)
    else LastRenewal(h[..|h| - 1], id)
  }

  function FirstRenewal(h: seq<Event>, id: string): Option<int> {
    if h == [] then None
    else
      var before := FirstRenewal(h[..|h| - 1], id);
      if before.Some? then before
      else if Renews(h[|h| - 1], id) then Some(h[|h| - 1].at) else None
  }

  /** An id is known exactly from its first registration on, whatever fails and
      whatever is swept; its lease always runs from its last registration; and
      while the store stays readable, registered_at is its first one. */
  lemma {:induction false} RecordMatchesHistory(lease: int, h: seq<Event>, id: string)
    ensures var m := Exec(map[], lease, h);
            && (id in m <==> LastRenewal(h, id).Some?) && (id in m <==> FirstRenewal(h, id).Some?)
            && (id in m ==> m[id].lastSeen == LastRenewal(h, id).value
                            && m[id].expires == m[id].lastSeen + lease
                            && (Readable(h) ==> m[id].registeredAt == FirstRenewal(h, id).value))
    decreases |h|
  {
    if h != [] {
      RecordMatchesHistory(lease, h[..|h| - 1], id);
      assert Readable(h) ==> Readable(h[..|h| - 1]);
    }
  }

  /** Event k is a registration that found no prior record: the first, or one made
      while the store could not be read. */
  predicate Restarts(h: seq<Event>, k: nat, id: string) {
    k < |h| && Renews(h[k], id) && (!h[k].op.listOk || LastRenewal(h[..k], id).None?)
  }

  predicate LastRestart(h: seq<Event>, k: nat, id: string) {
    Restarts(h, k, id) && forall j :: k < j < |h| ==> !Restarts(h, j, id)
  }

  lemma RestartsPrefix(h: seq<Event>, k: nat, id: string)
    requires h != [] && k < |h| - 1
    ensures Restarts(h, k, id) <==> Restarts(h[..|h| - 1], k, id)
  {
    assert h[..|h| - 1][..k] == h[..k];
  }

  lemma LastRestartStep(h: seq<Event>, k: nat, id: string)
    requires h != [] && k < |h| - 1
    ensures LastRestart(h, k, id) <==> LastRestart(h[..|h| - 1], k, id) && !Restarts(h, |h| - 1, id)
  {
    var h', n := h[..|h| - 1], |h| - 1;
    RestartsPrefix(h, k, id);
    forall j | k < j < n
      ensures Restarts(h, j, id) <==> Restarts(h', j, id)
    {
      RestartsPrefix(h, j, id);
    }
  }

  /** Exactly what registered_at is, readable store or not: the time of the last
      registration that found no prior record. */
  lemma {:induction false} RegisteredAtIs(lease: int, h: seq<Event>, id: string) returns (k: nat)
    requires id in Exec(map[], lease, h)
    ensures LastRestart(h, k, id) && Exec(map[], lease, h)[id].registeredAt == h[k].at
    ensures forall j: nat :: LastRestart(h, j, id) ==> j == k
    decreases |h|
  {
    var n := |h| - 1;
    RecordMatchesHistory(lease, h[..n], id);
    if Restarts(h, n, id) {
      k := n;
      assert LastRestart(h, n, id);
    } else {
      k := RegisteredAtIs(lease, h[..n], id);
      LastRestartStep(h, k, id);
    }
    forall j: nat | LastRestart(h, j, id)
      ensures j == k
    {
      assert j < k ==> !Restarts(h, k, id);
      assert k < j ==> !Restarts(h, j, id);
    }
  }

  /** An event moves a known engine's registered_at if and only if it is a renewal
      that meets an unreadable store at a different time. */
  lemma RegisteredAtMovesIff(m: Table, lease: int, ev: Event, id: string)
    requires id in m
    ensures id in Apply(m, lease, ev)
    ensures Apply(m, lease, ev)[id].registeredAt != m[id].registeredAt
       <==> Renews(ev, id) && !ev.op.listOk && ev.at != m[id].registeredAt
  {
  }

  /** Without the store's answer a renewal restarts registered_at and un-drains
      the engine: the lookup takes a read error for an unknown id. */
  lemma UnreadableStoreForgets(m: Table, lease: int, id: string, e: Engine, at: int)
    requires id != "" && e.state == Serving && id in m && m[id].state == Draining && m[id].registeredAt < at
    ensures var m' := Apply(m, lease, Event(at, Register(id, e, false, true)));
            m'[id].state == Serving && m'[id].registeredAt != m[id].registeredAt
  {
  }

  /** What a registration that gets through leaves behind, field by field: what the
      engine says of itself, its state too unless a drain is remembered, and the
      registry's own times whatever the caller claims. */
  lemma RenewalTable(m: Table, lease: int, at: int, id: string, e: Engine, listOk: bool)
    requires id != "" && e.state != Lost
    ensures var m' := Apply(m, lease, Event(at, Register(id, e, listOk, true)));
            var known := listOk && id in m;
            && m'.Keys == m.Keys + {id} && (forall x :: x in m && x != id ==> m'[x] == m[x])
            && m'[id].info == e.info && m'[id].lastSeen == at && m'[id].expires == at + lease
            && m'[id].registeredAt == (if known then m[id].registeredAt else at)
            && m'[id].state == (if known && m[id].state == Draining then Draining
                                else if e.state == Unspecified then Assembling else e.state)
  {
  }

  /** What does not get through changes nothing: no id, a self-reported LOST, a failed
      write; a state set on an unknown engine or past a store that fails. */
  lemma RefusalTable(m: Table, lease: int, at: int, id: string, e: Engine, state: EngineState, listOk: bool, putOk: bool)
    ensures id == "" || e.state == Lost || !putOk ==> Apply(m, lease, Event(at, Register(id, e, listOk, putOk))) == m
    ensures id !in m || !listOk || !putOk ==> Apply(m, lease, Event(at, SetState(id, state, listOk, putOk))) == m
    ensures id in m && listOk && putOk ==>
              Apply(m, lease, Event(at, SetState(id, state, listOk, putOk))) == m[id := m[id].(state := state)]
  {
  }

  // ----- LOST exactly when ------------------------------------------------

  predicate Sweeps(ev: Event, id: string) { ev.op.Sweep? && id !in ev.op.skipped }

  /** The k-th event is a sweep that reaches the engine after its lease ran out. */
  predicate ExpiresAt(lease: int, h: seq<Event>, k: nat, id: string) {
    k < |h| && Sweeps(h[k], id) && LastRenewal(h[..k], id).Some? && h[k].at > LastRenewal(h[..k], id).value + lease
  }

  /** The control plane writes the state of an engine it knows. */
  predicate MovesTo(h: seq<Event>, k: nat, id: string, state: EngineState) {
    k < |h| && Moves(h[k], id) && h[k].op.state == state && LastRenewal(h[..k], id).Some?
  }

  predicate BecomesLost(lease: int, h: seq<Event>, k: nat, id: string) {
    ExpiresAt(lease, h, k, id) || MovesTo(h, k, id, Lost)
  }

  /** No event after k writes the engine's state otherwise. */
  predicate Untouched(h: seq<Event>, k: nat, id: string) {
    forall j :: k < j < |h| ==> !Renews(h[j], id) && !Moves(h[j], id)
  }

  predicate LostSince(lease: int, h: seq<Event>, k: nat, id: string) {
    BecomesLost(lease, h, k, id) && Untouched(h, k, id)
  }

  lemma LostSincePrefix(lease: int, h: seq<Event>, k: nat, id: string)
    requires h != [] && k < |h| - 1
    ensures LostSince(lease, h, k, id)
       <==> LostSince(lease, h[..|h| - 1], k, id) && !Renews(h[|h| - 1], id) && !Moves(h[|h| - 1], id)
  {
    var h' := h[..|h| - 1];
    assert h'[..k] == h[..k];
    assert forall j :: 0 <= j < |h'| ==> h[j] == h'[j];
    if LostSince(lease, h', k, id) && !Renews(h[|h| - 1], id) && !Moves(h[|h| - 1], id) {
      forall j | k < j < |h|
        ensures !Renews(h[j], id) && !Moves(h[j], id)
      {
        if j < |h'| {
          assert h[j] == h'[j];
        }
      }
    }
  }

  ghost predicate EverLost(lease: int, h: seq<Event>, id: string) {
    exists k: nat :: LostSince(lease, h, k, id)
  }

  lemma EverLostStep(lease: int, h: seq<Event>, id: string)
    requires h != []
    ensures EverLost(lease, h, id)
       <==> BecomesLost(lease, h, |h| - 1, id)
            || (EverLost(lease, h[..|h| - 1], id) && !Renews(h[|h| - 1], id) && !Moves(h[|h| - 1], id))
  {
    var n := |h| - 1;
    if EverLost(lease, h, id) {
      var k: nat :| LostSince(lease, h, k, id);
      if k < n {
        LostSincePrefix(lease, h, k, id);
      }
    }
    if BecomesLost(lease, h, n, id) {
      assert LostSince(lease, h, n, id);
    } else if EverLost(lease, h[..n], id) && !Renews(h[n], id) && !Moves(h[n], id) {
      var k: nat :| LostSince(lease, h[..n], k, id);
      LostSincePrefix(lease, h, k, id);
    }
  }

  /** An engine is LOST exactly when some sweep reached it later than its last
      registration plus the lease, or the control plane set it so, and it has
      neither registered nor been moved since. */
  lemma {:induction false} LostIff(lease: int, h: seq<Event>, id: string)
    ensures IsLost(Exec(map[], lease, h), id) <==> EverLost(lease, h, id)
    decreases |h|
  {
    if h != [] {
      var h', ev := h[..|h| - 1], h[|h| - 1];
      LostIff(lease, h', id);
      RecordMatchesHistory(lease, h', id);
      EverLostStep(lease, h, id);
      LastStepLost(lease, Exec(map[], lease, h'), ev, id);
    }
  }

  predicate IsLost(m: Table, id: string) { id in m && m[id].state == Lost }

  lemma LastStepLost(lease: int, m: Table, ev: Event, id: string)
    ensures IsLost(Apply(m, lease, ev), id)
       <==> || (Sweeps(ev, id) && id in m && ev.at > m[id].expires)
            || (Moves(ev, id) && ev.op.state == Lost && id in m)
            || (IsLost(m, id) && !Renews(ev, id) && !Moves(ev, id))
  {
  }

  // ----- Draining ---------------------------------------------------------

  predicate IsDraining(m: Table, id: string) { id in m && m[id].state == Draining }

  /** Event k drains the engine: the control plane says so, or the engine does. */
  predicate DrainsAt(h: seq<Event>, k: nat, id: string) {
    MovesTo(h, k, id, Draining) || (k < |h| && Renews(h[k], id) && h[k].op.e.state == Draining)
  }

  /** Event k ends a drain: its lease expires under a sweep, it reports another state
      while the store cannot be read, or the control plane moves it elsewhere. */
  predicate Undrains(lease: int, h: seq<Event>, k: nat, id: string) {
    || ExpiresAt(lease, h, k, id)
    || (k < |h| && Renews(h[k], id) && !h[k].op.listOk && h[k].op.e.state != Draining)
    || (k < |h| && Moves(h[k], id) && h[k].op.state != Draining)
  }

  predicate DrainedSince(lease: int, h: seq<Event>, k: nat, id: string) {
    DrainsAt(h, k, id) && forall j :: k < j < |h| ==> !Undrains(lease, h, j, id)
  }

  ghost predicate EverDrained(lease: int, h: seq<Event>, id: string) {
    exists k: nat :: DrainedSince(lease, h, k, id)
  }

  lemma UndrainsPrefix(lease: int, h: seq<Event>, k: nat, id: string)
    requires h != [] && k < |h| - 1
    ensures Undrains(lease, h, k, id) <==> Undrains(lease, h[..|h| - 1], k, id)
    ensures DrainsAt(h, k, id) <==> DrainsAt(h[..|h| - 1], k, id)
  {
    assert h[..|h| - 1][..k] == h[..k];
  }

  lemma DrainedSinceStep(lease: int, h: seq<Event>, k: nat, id: string)
    requires h != [] && k < |h| - 1
    ensures DrainedSince(lease, h, k, id) <==> DrainedSince(lease, h[..|h| - 1], k, id) && !Undrains(lease, h, |h| - 1, id)
  {
    var h', n := h[..|h| - 1], |h| - 1;
    UndrainsPrefix(lease, h, k, id);
    forall j | k < j < n
      ensures Undrains(lease, h, j, id) <==> Undrains(lease, h', j, id)
    {
      UndrainsPrefix(lease, h, j, id);
    }
  }

  lemma EverDrainedStep(lease: int, h: seq<Event>, id: string)
    requires h != []
    ensures EverDrained(lease, h, id)
       <==> DrainsAt(h, |h| - 1, id) || (EverDrained(lease, h[..|h| - 1], id) && !Undrains(lease, h, |h| - 1, id))
  {
    var n := |h| - 1;
    if EverDrained(lease, h, id) {
      var k: nat :| DrainedSince(lease, h, k, id);
      if k < n {
        DrainedSinceStep(lease, h, k, id);
      }
    }
    if DrainsAt(h, n, id) {
      assert DrainedSince(lease, h, n, id);
    } else if EverDrained(lease, h[..n], id) && !Undrains(lease, h, n, id) {
      var k: nat :| DrainedSince(lease, h[..n], k, id);
      DrainedSinceStep(lease, h, k, id);
    }
  }

  lemma LastStepDraining(m: Table, lease: int, ev: Event, id: string)
    ensures IsDraining(Apply(m, lease, ev), id)
       <==> || (Moves(ev, id) && ev.op.state == Draining && id in m)
            || (Renews(ev, id) && ev.op.e.state == Draining)
            || (IsDraining(m, id) && !(Sweeps(ev, id) && ev.at > m[id].expires)
                && !(Renews(ev, id) && !ev.op.listOk) && !Moves(ev, id))
  {
  }

  /** An engine is DRAINING exactly when something drained it and since then no sweep
      found its lease expired, no renewal that met an unreadable store reported
      another state, and the control plane did not move it elsewhere. Its own
      reports, read against a readable store, never matter. */
  lemma {:induction false} DrainingIff(lease: int, h: seq<Event>, id: string)
    ensures IsDraining(Exec(map[], lease, h), id) <==> EverDrained(lease, h, id)
    decreases |h|
  {
    if h != [] {
      var h' := h[..|h| - 1];
      DrainingIff(lease, h', id);
      RecordMatchesHistory(lease, h', id);
      EverDrainedStep(lease, h, id);
      LastStepDraining(Exec(map[], lease, h'), lease, h[|h| - 1], id);
    }
  }

  /** Once DRAINING, no self-report changes the state: it stays DRAINING until a
      sweep finds the lease expired. */
  lemma {:induction false} DrainSticks(m: Table, lease: int, h: seq<Event>, id: string)
    requires id in m && m[id].state == Draining && OnlyDrains(h) && Readable(h)
    ensures id in Exec(m, lease, h)
    ensures Exec(m, lease, h)[id].state == Draining
         || exists k: nat :: k <= |h| && IsLost(Exec(m, lease, h[..k]), id)
    decreases |h|
  {
    if h != [] {
      var h', n := h[..|h| - 1], |h| - 1;
      assert OnlyDrains(h') && Readable(h');
      DrainSticks(m, lease, h', id);
      if k: nat :| k <= |h'| && IsLost(Exec(m, lease, h'[..k]), id) {
        assert h'[..k] == h[..k];
      } else {
        assert h == h[..n + 1];
        assert IsLost(Exec(m, lease, h), id) ==> IsLost(Exec(m, lease, h[..n + 1]), id);
      }
    }
  }

  /** After LOST it does not stick: any engine that was drained and then lost
      comes back in whatever state it reports. */
  lemma LostForgetsDrain(m: Table, lease: int, id: string, e: Engine, sweepAt: int, backAt: int)
    requires id != "" && e.state == Serving && id in m && m[id].state == Draining && sweepAt > m[id].expires
    ensures Exec(m, lease, [Event(sweepAt, Sweep({})), Event(backAt, Register(id, e, true, true))])[id].state == Serving
  {
    var h := [Event(sweepAt, Sweep({})), Event(backAt, Register(id, e, true, true))];
    assert h[..1] == [h[0]] && h[..1][..0] == [];
    assert Exec(m, lease, h[..1]) == Apply(m, lease, h[0]);
  }

  // ----- The agent's cadence ----------------------------------------------

  const SECOND: int := 1_000_000_000
  const DEFAULT_LEASE: int := 30 * SECOND
  const DEFAULT_INTERVAL: int := 5 * SECOND
  const RENEW_DIVISOR: int := 3

  /** Conversion to a signed 32-bit integer. */
  function Int32(x: int): int {
    (x + 0x8000_0000) % 0x1_0000_0000 - 0x8000_0000
  }

  function LeaseSeconds(lease: int): int
    requires lease > 0
  {
    Int32(lease / SECOND)
  }

  /** The interval after an attempt: unchanged when it failed or when the answer
      carries no positive lease. */
  function NextInterval(interval: int, answer: Option<int>): int {
    if answer.Some? && answer.value > 0 then answer.value * SECOND / RENEW_DIVISOR else interval
  }

  class Agent {
    var interval: int

    constructor ()
      ensures interval == DEFAULT_INTERVAL
    {
      interval := DEFAULT_INTERVAL;
    }

    method RegisterOnce(answer: Option<int>)
      modifies this
      ensures interval == NextInterval(old(interval), answer)
    {
      if answer.None? {
        return;
      }
      var lease := answer.value;
      if lease > 0 {
        interval := lease * SECOND / RENEW_DIVISOR;
      }
    }
  }

  /** The interval once the control plane has answered. */
  function RenewalInterval(lease: int): int
    requires lease > 0
  {
    NextInterval(DEFAULT_INTERVAL, Some(LeaseSeconds(lease)))
  }

  /** Three renewals fit inside the lease exactly when it is at least a second:
      below that the agent is told zero and keeps its five seconds. Leases past
      the 32-bit range are no exception, wrapped or not. */
  lemma ThreeFitIff(lease: int)
    requires 0 < lease < 0x8000_0000_0000_0000
    ensures RenewalInterval(lease) > 0
    ensures RENEW_DIVISOR * RenewalInterval(lease) <= lease <==> lease >= SECOND
  {
    var secs := lease / SECOND;
    assert secs * SECOND <= lease < (secs + 1) * SECOND;
    var w := Int32(secs);
    Int32AtMost(secs);
    if w > 0 {
      assert 3 * (w * SECOND / 3) <= w * SECOND <= secs * SECOND;
    } else {
      assert secs == 0 || secs >= 0x8000_0000;
    }
  }

  /** The conversion keeps the low 32 bits, read as a signed number. */
  lemma Int32Is(x: int)
    ensures -0x8000_0000 <= Int32(x) < 0x8000_0000 && (x - Int32(x)) % 0x1_0000_0000 == 0
  {
    var r := (x + 0x8000_0000) % 0x1_0000_0000;
    assert x - Int32(x) == 0x1_0000_0000 * ((x + 0x8000_0000) / 0x1_0000_0000);
  }

  /** The cadence in numbers: three intervals are the whole seconds of the lease, less
      at most two nanoseconds; five seconds before there is an answer, and after one
      that is not positive; ten under the default lease of thirty. */
  lemma CadenceTable(interval: int, secs: int)
    ensures secs > 0 ==> var i := NextInterval(interval, Some(secs)); 3 * i <= secs * 1_000_000_000 < 3 * i + 3
    ensures secs <= 0 ==> NextInterval(interval, Some(secs)) == interval
    ensures NextInterval(interval, None) == interval
    ensures DEFAULT_INTERVAL == 5_000_000_000 && DEFAULT_LEASE == 30_000_000_000
    ensures LeaseSeconds(DEFAULT_LEASE) == 30 && RenewalInterval(DEFAULT_LEASE) == 10_000_000_000
  {
  }

  lemma Int32AtMost(x: int)
    requires 0 <= x
    ensures Int32(x) <= x
    ensures x < 0x8000_0000 ==> Int32(x) == x
  {
  }

  // ----- End to end -------------------------------------------------------

  predicate Attempts(ev: Event, id: string) { ev.op.Register? && ev.op.id == id }

  /** How many attempts have failed since the last one that got through. */
  function Misses(h: seq<Event>, id: string): nat {
    if h == [] || Renews(h[|h| - 1], id) then 0
    else Misses(h[..|h| - 1], id) + if Attempts(h[|h| - 1], id) then 1 else 0
  }

  /** When the agent's next attempt is due, after its first success. */
  function Due(interval: int, h: seq<Event>, id: string): int
    requires LastRenewal(h, id).Some?
  {
    LastRenewal(h, id).value + (Misses(h, id) + 1) * interval
  }

  /** After its first success the agent attempts exactly on schedule, calls taking
      no time: nothing in the log is later than an attempt that was due before. */
  predicate OnSchedule(interval: int, h: seq<Event>, id: string) {
    forall k :: 0 <= k < |h| && LastRenewal(h[..k], id).Some? ==>
      h[k].at <= Due(interval, h[..k], id) && (Attempts(h[k], id) ==> h[k].at == Due(interval, h[..k], id))
  }

  predicate AtMostTwoMissed(h: seq<Event>, id: string) {
    forall k :: 0 <= k <= |h| ==> Misses(h[..k], id) <= 2
  }

  /** An agent on schedule that never misses three renewals in a row is never
      LOST, whenever the sweeps come. */
  lemma TwoMissesTolerated(lease: int, h: seq<Event>, id: string)
    requires SECOND <= lease < 0x8000_0000_0000_0000
    requires OnlyDrains(h) && OnSchedule(RenewalInterval(lease), h, id) && AtMostTwoMissed(h, id)
    ensures !IsLost(Exec(map[], lease, h), id)
  {
    LostIff(lease, h, id);
    ThreeFitIff(lease);
    var step := RenewalInterval(lease);
    forall k: nat
      ensures !LostSince(lease, h, k, id)
    {
      if k < |h| && LastRenewal(h[..k], id).Some? {
        DueWithinLease(Misses(h[..k], id), step, lease);
      }
    }
  }

  lemma DueWithinLease(misses: nat, step: int, lease: int)
    requires misses <= 2 && 0 < step && 3 * step <= lease
    ensures (misses + 1) * step <= lease
  {
    if misses == 0 || misses == 1 || misses == 2 {
    }
  }

  /** Under a lease of less than a second an agent on schedule that misses nothing
      is LOST all the same, at every sweep between its lease's end and its next
      attempt. */
  lemma ShortLeaseIsLost(lease: int, id: string, e: Engine, sweepAt: int)
    requires 0 < lease < SECOND && id != "" && e.state == Serving && lease < sweepAt <= DEFAULT_INTERVAL
    ensures var h := [Event(0, Register(id, e, true, true)), Event(sweepAt, Sweep({}))];
            && OnSchedule(RenewalInterval(lease), h, id) && AtMostTwoMissed(h, id)
            && IsLost(Exec(map[], lease, h), id)
  {
    var h := [Event(0, Register(id, e, true, true)), Event(sweepAt, Sweep({}))];
    assert h[..0] == [] && h[..1] == [h[0]] && h[..1][..0] == [] && h[..2] == h;
    assert lease / SECOND == 0;
    assert RenewalInterval(lease) == DEFAULT_INTERVAL;
    assert LastRenewal(h[..1], id) == Some(0);
    assert Misses(h[..1], id) == 0 && Misses(h, id) == 0;
    assert Exec(map[], lease, h[..1]) == Apply(map[], lease, h[0]);
    forall k | 0 <= k <= |h|
      ensures Misses(h[..k], id) <= 2
    {
      assert k == 0 || k == 1 || k == 2;
    }
  }
}
