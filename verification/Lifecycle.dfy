/** Instance lifecycle (internal/provisioners/service.go): CreateInstance,
    DestroyInstance, remote DescribeInstance, the ListInstances self-heal, and the
    placement of replica machines by a fan-out (fanout.go), as a protocol between
    a state file and providers that rent machines.

    Each store.Update and each provider call is one step; between any two steps
    other operations may run, an operation may crash, a machine may die and the
    state file may be lost. Provider answers are parameters of the steps. */
module Lifecycle {
  import opened Common

  type Id = string
  type Provider = string
  type Machine = nat

  datatype InstanceState = Pending | Active | Terminating | Terminated | Failed
  datatype Record = Record(provider: Provider, pid: Option<Machine>, state: InstanceState)
  type Records = map<Id, Record>

  // ----- The state file ---------------------------------------------------

  /** Nothing in the record stops the next Create from claiming the id. */
  predicate Claimable(f: Records, id: Id) {
    id !in f || f[id].state == Terminated || f[id].state == Failed
  }

  function AfterMark(r: Record, backfill: Option<Machine>): Record {
    r.(state := Terminating, pid := if r.pid == None then backfill else r.pid)
  }

  function AfterPatch(f: Records, id: Id, r: Record): Records { f[id := r] }

  function AfterSettle(f: Records, id: Id, ok: bool): Records {
    if id !in f then f else f[id := f[id].(state := if ok then Terminated else Failed)]
  }

  datatype Claim = ClaimedPending | AlreadyExists | OtherProvider | StillTerminating

  class StateFile {
    var instances: Records

    constructor ()
      ensures instances == map[]
    {
      instances := map[];
    }

    /** Step 1 of CreateInstance. */
    method ClaimPending(id: Id, p: Provider) returns (c: Claim)
      modifies this
      ensures c == ClaimedPending <==> Claimable(old(instances), id)
      ensures c == StillTerminating <==> id in old(instances) && old(instances)[id].state == Terminating
      ensures var busy := id in old(instances) && old(instances)[id].state in {Pending, Active};
              && (c == OtherProvider <==> busy && old(instances)[id].provider != p)
              && (c == AlreadyExists <==> busy && old(instances)[id].provider == p)
      ensures instances == if c == ClaimedPending then old(instances)[id := Record(p, None, Pending)] else old(instances)
    {
      if id in instances {
        var existing := instances[id];
        if existing.state == Pending || existing.state == Active {
          return if existing.provider != p then OtherProvider else AlreadyExists;
        }
        if existing.state == Terminating {
          return StillTerminating;
        }
      }
      instances := instances[id := Record(p, None, Pending)];
      return ClaimedPending;
    }

    /** Step 1 of DestroyInstance: what is to be terminated, if anything. */
    method MarkTerminating(id: Id, backfill: Option<Machine>) returns (marked: Option<Record>)
      modifies this
      ensures marked.Some? <==> id in old(instances) && old(instances)[id].state != Terminated
      ensures marked.Some? ==>
                var r := old(instances)[id];
                && marked.value == AfterMark(r, backfill)
                && marked.value == Record(r.provider, if r.pid.Some? then r.pid else backfill, Terminating)
      ensures instances == if marked.Some? then AfterPatch(old(instances), id, marked.value) else old(instances)
    {
      if id !in instances || instances[id].state == Terminated {
        return None;
      }
      var existing := instances[id];
      if existing.pid == None && backfill.Some? {
        existing := existing.(pid := backfill);
      }
      existing := existing.(state := Terminating);
      instances := instances[id := existing];
      return Some(existing);
    }

    /** Step 3 of DestroyInstance. */
    method Settle(id: Id, ok: bool)
      modifies this
      ensures instances == AfterSettle(old(instances), id, ok)
      ensures instances.Keys == old(instances).Keys
      ensures forall x :: x in instances && x != id ==> instances[x] == old(instances)[x]
      ensures id in old(instances) ==>
                instances[id] == Record(old(instances)[id].provider, old(instances)[id].pid, if ok then Terminated else Failed)
    {
      if id in instances {
        instances := instances[id := instances[id].(state := if ok then Terminated else Failed)];
      }
    }

    /** patchRecord: unconditional, whatever has happened since the read. */
    method Patch(id: Id, r: Record)
      modifies this
      ensures instances == AfterPatch(old(instances), id, r) == old(instances)[id := r]
    {
      instances := instances[id := r];
    }
  }

  // ----- The protocol -----------------------------------------------------

  datatype Tag = Tag(provider: Provider, id: Id)

  /** An operation in flight, after the step its name says. */
  datatype Op =
    | Claimed(id: Id, p: Provider)
    | Choosing(id: Id, p: Provider, refs: seq<Machine>)
    | Rented(id: Id, p: Provider, m: Machine, st: InstanceState)
    | SpawnFailed(id: Id, p: Provider)
    | Marked(id: Id, p: Provider, pid: Option<Machine>, force: bool)
    | Settling(id: Id, ok: bool)
    | HealRead(id: Id, rec: Record)
    | HealListed(id: Id, rec: Record, refs: seq<Machine>)
    | DescRead(id: Id, rec: Record)
    | DescGone(id: Id, rec: Record)
    | Refreshed(id: Id, p: Provider, m: Machine, st: InstanceState)
    | PlaceReady(id: Id, p: Provider)

  /** `machines` holds the live ones, with the tag each was rented under. */
  datatype State = State(records: Records, machines: map<Machine, Tag>, next: Machine, ops: map<nat, Op>)

  datatype Action =
    | CreateClaim(o: nat, id: Id, p: Provider)
    | CreateList(o: nat, refs: seq<Machine>)
    | CreateListFails(o: nat)
    | CreateAdopt(o: nat, st: InstanceState)
    | CreateSkip(o: nat)
    | CreateKeyFails(o: nat)
    | CreateSpawn(o: nat, st: InstanceState)
    | CreateSpawnFails(o: nat, leaked: bool)
    | CreatePatch(o: nat)
    | DestroyMark(o: nat, id: Id, force: bool, backfill: Option<Machine>)
    | DestroyCall(o: nat, ok: bool, killed: bool)
    | DestroySettle(o: nat)
    | HealBegin(o: nat, id: Id)
    | HealList(o: nat, refs: seq<Machine>)
    | HealTerminate(o: nat)
    | HealDescribe(o: nat, st: InstanceState)
    | DescribeBegin(o: nat, id: Id)
    | DescribeGone(o: nat)
    | DescribeFresh(o: nat, st: InstanceState)
    | DescribePatch(o: nat)
    | PlaceRead(o: nat, id: Id, p: Provider, readOk: bool)
    | PlaceClaim(o: nat)
    | GiveUp(o: nat)
    | Crash(o: nat)
    | Vanish(m: Machine)
    | Wipe(id: Id)

  predicate Live(s: State, p: Provider, id: Id, m: Machine) {
    m in s.machines && s.machines[m] == Tag(p, id)
  }

  /** A tag listing leaves no live machine out. It may name dead ones as well. */
  ghost predicate Complete(s: State, p: Provider, id: Id, refs: seq<Machine>) {
    forall m :: Live(s, p, id, m) ==> m in refs
  }

  predicate Enabled(s: State, a: Action) {
    match a
    case CreateClaim(o, id, _) => o !in s.ops && Claimable(s.records, id)
    case CreateList(o, _) => o in s.ops && s.ops[o].Claimed?
    case CreateListFails(o) => o in s.ops && s.ops[o].Claimed?
    case CreateAdopt(o, _) => o in s.ops && s.ops[o].Choosing? && s.ops[o].refs != []
    case CreateSkip(o) => o in s.ops && s.ops[o].Choosing? && s.ops[o].refs != []
    case CreateKeyFails(o) => o in s.ops && s.ops[o].Choosing? && s.ops[o].refs == []
    case CreateSpawn(o, _) => o in s.ops && s.ops[o].Choosing? && s.ops[o].refs == []
    case CreateSpawnFails(o, _) => o in s.ops && s.ops[o].Choosing? && s.ops[o].refs == []
    case CreatePatch(o) => o in s.ops && (s.ops[o].Rented? || s.ops[o].SpawnFailed?)
    case DestroyMark(o, id, _, _) => o !in s.ops && id in s.records && s.records[id].state != Terminated
    case DestroyCall(o, _, _) => o in s.ops && s.ops[o].Marked?
    case DestroySettle(o) => o in s.ops && s.ops[o].Settling?
    case HealBegin(o, id) => o !in s.ops && id in s.records && (s.records[id].state == Pending || s.records[id].state == Terminating)
    case HealList(o, _) => o in s.ops && s.ops[o].HealRead?
    case HealTerminate(o) => o in s.ops && s.ops[o].HealListed? && s.ops[o].refs == [] && s.ops[o].rec.state == Terminating
    case HealDescribe(o, _) => o in s.ops && s.ops[o].HealListed? && s.ops[o].refs != [] && s.ops[o].rec.state == Pending
    case DescribeBegin(o, id) => o !in s.ops && id in s.records && s.records[id].pid.Some?
    case DescribeGone(o) => o in s.ops && s.ops[o].DescRead?
    case DescribeFresh(o, _) => o in s.ops && s.ops[o].DescRead? && s.ops[o].rec.pid.Some?
    case DescribePatch(o) => o in s.ops && (s.ops[o].DescGone? || s.ops[o].Refreshed?)
    case PlaceRead(o, id, _, readOk) => o !in s.ops && (readOk ==> id !in s.records)
    case PlaceClaim(o) => o in s.ops && s.ops[o].PlaceReady?
    case GiveUp(o) => o in s.ops && (s.ops[o].HealRead? || s.ops[o].HealListed? || s.ops[o].DescRead?)
    case Crash(o) => o in s.ops
    case Vanish(m) => m in s.machines
    case Wipe(id) => id in s.records
  }

  function Goto(s: State, o: nat, op: Op): State { s.(ops := s.ops[o := op]) }
  function Done(s: State, o: nat): State { s.(ops := s.ops - {o}) }

  function Rent(s: State, p: Provider, id: Id): State {
    s.(machines := s.machines[s.next := Tag(p, id)], next := s.next + 1)
  }

  function Write(s: State, id: Id, r: Record): State { s.(records := AfterPatch(s.records, id, r)) }

  function Step(s: State, a: Action): State {
    if !Enabled(s, a) then s else
    match a
    case CreateClaim(o, id, p) => Goto(Write(s, id, Record(p, None, Pending)), o, Claimed(id, p))
    case CreateList(o, refs) => Goto(s, o, Choosing(s.ops[o].id, s.ops[o].p, refs))
    case CreateListFails(o) => Goto(s, o, Choosing(s.ops[o].id, s.ops[o].p, []))
    case CreateAdopt(o, st) => Goto(s, o, Rented(s.ops[o].id, s.ops[o].p, s.ops[o].refs[0], st))
    case CreateSkip(o) => Goto(s, o, Choosing(s.ops[o].id, s.ops[o].p, s.ops[o].refs[1..]))
    case CreateKeyFails(o) => Done(s, o)
    case CreateSpawn(o, st) =>
      Goto(Rent(s, s.ops[o].p, s.ops[o].id), o, Rented(s.ops[o].id, s.ops[o].p, s.next, st))
    case CreateSpawnFails(o, leaked) =>
      Goto(if leaked then Rent(s, s.ops[o].p, s.ops[o].id) else s, o, SpawnFailed(s.ops[o].id, s.ops[o].p))
    case CreatePatch(o) =>
      var op := s.ops[o];
      Done(Write(s, op.id, if op.Rented? then Record(op.p, Some(op.m), op.st) else Record(op.p, None, Failed)), o)
    case DestroyMark(o, id, force, backfill) =>
      var r := AfterMark(s.records[id], backfill);
      Goto(Write(s, id, r), o, Marked(id, r.provider, r.pid, force))
    case DestroyCall(o, ok, killed) =>
      var op := s.ops[o];
      if op.force || op.pid == None then Goto(s, o, Settling(op.id, true))
      else Goto(if killed && op.pid.value in s.machines && s.machines[op.pid.value].provider == op.p
                then s.(machines := s.machines - {op.pid.value}) else s, o, Settling(op.id, ok))
    case DestroySettle(o) => Done(s.(records := AfterSettle(s.records, s.ops[o].id, s.ops[o].ok)), o)
    case HealBegin(o, id) => Goto(s, o, HealRead(id, s.records[id]))
    case HealList(o, refs) => Goto(s, o, HealListed(s.ops[o].id, s.ops[o].rec, refs))
    case HealTerminate(o) => Done(s.(records := AfterSettle(s.records, s.ops[o].id, true)), o)
    case HealDescribe(o, st) => Goto(s, o, Refreshed(s.ops[o].id, s.ops[o].rec.provider, s.ops[o].refs[0], st))
    case DescribeBegin(o, id) => Goto(s, o, DescRead(id, s.records[id]))
    case DescribeGone(o) => Goto(s, o, DescGone(s.ops[o].id, s.ops[o].rec))
    case DescribeFresh(o, st) => Goto(s, o, Refreshed(s.ops[o].id, s.ops[o].rec.provider, s.ops[o].rec.pid.value, st))
    case DescribePatch(o) =>
      var op := s.ops[o];
      Done(Write(s, op.id, if op.DescGone? then op.rec.(state := Terminated) else Record(op.p, Some(op.m), op.st)), o)
    case PlaceRead(o, id, p, _) => Goto(s, o, PlaceReady(id, p))
    case PlaceClaim(o) =>
      var op := s.ops[o];
      Goto(Write(s, op.id, Record(op.p, None, Pending)), o, Choosing(op.id, op.p, []))
    case GiveUp(o) => Done(s, o)
    case Crash(o) => Done(s, o)
    case Vanish(m) => s.(machines := s.machines - {m})
    case Wipe(id) => s.(records := s.records - {id})
  }

  function Exec(s: State, run: seq<Action>): State
    decreases |run|
  {
    if run == [] then s else Exec(Step(s, run[0]), run[1..])
  }

  predicate Init(s: State) {
    s.records == map[] && s.machines == map[] && s.next == 0 && s.ops == map[]
  }

  // ----- One machine per id -----------------------------------------------

  /** A Create of id has claimed the record and has not rented anything yet. */
  predicate PreSpawn(op: Op, id: Id) {
    (op.Claimed? || op.Choosing?) && op.id == id
  }

  predicate CreatePending(s: State, id: Id) {
    exists o :: o in s.ops && PreSpawn(s.ops[o], id)
  }

  /** The step makes an id claimable that was not. */
  predicate Frees(s: State, a: Action, id: Id) {
    !Claimable(s.records, id) && Claimable(Step(s, a).records, id)
  }

  /** What Create still has to look at after the step: the listing it was given,
      nothing when the listing failed, the rest when it passes over a machine. */
  function Remaining(s: State, a: Action): seq<Machine>
    requires Enabled(s, a) && (a.CreateList? || a.CreateListFails? || a.CreateSkip?)
  {
    if a.CreateList? then a.refs else if a.CreateSkip? then s.ops[a.o].refs[1..] else []
  }

  /** No live machine escapes Create's search: listings leave none out, a failed one
      does no harm because there is none, and none is passed over. */
  ghost predicate Accurate(s: State, a: Action) {
    Enabled(s, a) && (a.CreateList? || a.CreateListFails? || a.CreateSkip?) ==>
      Complete(s, s.ops[a.o].p, s.ops[a.o].id, Remaining(s, a))
  }

  /** Somebody other than o is on its way to rent the same machine. */
  predicate RivalOf(s: State, o: nat, id: Id, p: Provider) {
    exists q :: q in s.ops && q != o && PreSpawn(s.ops[q], id) && s.ops[q].p == p
  }

  /** A placement does not look for a machine before it rents, so it may claim its
      record only when there is none and nobody is about to rent one. */
  ghost predicate PlacesSafely(s: State, a: Action) {
    a.PlaceClaim? && Enabled(s, a) ==>
      (forall m :: !Live(s, s.ops[a.o].p, s.ops[a.o].id, m)) && !RivalOf(s, a.o, s.ops[a.o].id, s.ops[a.o].p)
  }

  /** The overlap rule: no write frees an id while a Create of that id is still
      on its way to the provider, and placements are safe. */
  ghost predicate Disciplined(s: State, a: Action) {
    Accurate(s, a) && PlacesSafely(s, a) && forall id :: Frees(s, a, id) ==> !CreatePending(s, id)
  }

  ghost predicate DisciplinedRun(s: State, run: seq<Action>)
    decreases |run|
  {
    run == [] || (Disciplined(s, run[0]) && DisciplinedRun(Step(s, run[0]), run[1..]))
  }

  ghost predicate OneMachine(s: State) {
    forall m, n :: m in s.machines && n in s.machines && s.machines[m] == s.machines[n] ==> m == n
  }

  /** Both are about to rent the machine with this tag. */
  predicate Rivals(op: Op, other: Op) {
    PreSpawn(op, op.id) && PreSpawn(other, op.id) && op.p == other.p
  }

  predicate RivalFree(ops: map<nat, Op>) {
    forall o, q :: o in ops && q in ops && Rivals(ops[o], ops[q]) ==> o == q
  }

  ghost predicate Inv(s: State) {
    && OneMachine(s)
    && (forall m :: m in s.machines ==> m < s.next)
    && RivalFree(s.ops)
    && (forall o :: o in s.ops && PreSpawn(s.ops[o], s.ops[o].id) ==> !Claimable(s.records, s.ops[o].id))
    && (forall o, m :: o in s.ops && s.ops[o].Choosing? && Live(s, s.ops[o].p, s.ops[o].id, m) ==> m in s.ops[o].refs)
  }

  lemma EndKeepsInv(s: State, o: nat)
    requires Inv(s)
    ensures Inv(Done(s, o))
  {
  }

  lemma MoveKeepsInv(s: State, o: nat, op: Op)
    requires Inv(s) && !op.Claimed? && !op.Choosing?
    ensures Inv(Goto(s, o, op))
  {
  }

  lemma WriteKeepsInv(s: State, f: Records)
    requires Inv(s)
    requires forall id :: CreatePending(s, id) ==> !Claimable(f, id)
    ensures Inv(s.(records := f))
  {
    forall o | o in s.ops && PreSpawn(s.ops[o], s.ops[o].id)
      ensures !Claimable(f, s.ops[o].id)
    {
      assert CreatePending(s, s.ops[o].id);
    }
  }

  lemma LossKeepsInv(s: State, m: Machine)
    requires Inv(s)
    ensures Inv(s.(machines := s.machines - {m}))
  {
  }

  /** A claim is only possible when no other Create of the id is on its way. */
  lemma ClaimKeepsInv(s: State, o: nat, id: Id, p: Provider)
    requires Inv(s) && Claimable(s.records, id) && o !in s.ops
    ensures Inv(Goto(Write(s, id, Record(p, None, Pending)), o, Claimed(id, p)))
  {
  }

  lemma ListKeepsInv(s: State, o: nat, refs: seq<Machine>)
    requires Inv(s) && o in s.ops && (s.ops[o].Claimed? || s.ops[o].Choosing?)
    requires forall m :: Live(s, s.ops[o].p, s.ops[o].id, m) ==> m in refs
    ensures Inv(Goto(s, o, Choosing(s.ops[o].id, s.ops[o].p, refs)))
  {
  }

  /** A machine is rented only when no live one carries the tag. */
  lemma RentKeepsInv(s: State, o: nat, op: Op)
    requires Inv(s) && o in s.ops && s.ops[o].Choosing? && s.ops[o].refs == []
    requires !op.Claimed? && !op.Choosing?
    ensures Inv(Goto(Rent(s, s.ops[o].p, s.ops[o].id), o, op))
  {
    var p, id := s.ops[o].p, s.ops[o].id;
    assert forall m :: !Live(s, p, id, m);
    var s' := Goto(Rent(s, p, id), o, op);
    forall m, n | m in s'.machines && n in s'.machines && s'.machines[m] == s'.machines[n]
      ensures m == n
    {
      assert !Live(s, p, id, m) && !Live(s, p, id, n);
    }
    forall q, m | q in s'.ops && s'.ops[q].Choosing? && Live(s', s'.ops[q].p, s'.ops[q].id, m)
      ensures m in s'.ops[q].refs
    {
      assert q != o && !Rivals(s.ops[o], s.ops[q]);
      assert Live(s, s.ops[q].p, s.ops[q].id, m);
    }
  }

  lemma PlaceClaimIs(s: State, o: nat)
    requires o in s.ops && s.ops[o].PlaceReady?
    ensures var id, p := s.ops[o].id, s.ops[o].p;
            Step(s, PlaceClaim(o)) == Goto(Write(s, id, Record(p, None, Pending)), o, Choosing(id, p, []))
  {
  }

  lemma NoRivals(s: State, o: nat, id: Id, p: Provider)
    requires RivalFree(s.ops) && !RivalOf(s, o, id, p)
    ensures RivalFree(s.ops[o := Choosing(id, p, [])])
  {
    var ops := s.ops[o := Choosing(id, p, [])];
    forall x, q | x in ops && q in ops && Rivals(ops[x], ops[q])
      ensures x == q
    {
      if x != o && q != o {
        assert Rivals(s.ops[x], s.ops[q]);
      }
    }
  }

  /** A safe placement claims its record. */
  lemma PlaceKeepsInv(s: State, o: nat)
    requires Inv(s) && o in s.ops && s.ops[o].PlaceReady?
    requires (forall m :: !Live(s, s.ops[o].p, s.ops[o].id, m)) && !RivalOf(s, o, s.ops[o].id, s.ops[o].p)
    ensures var id, p := s.ops[o].id, s.ops[o].p;
            Inv(Goto(Write(s, id, Record(p, None, Pending)), o, Choosing(id, p, [])))
  {
    var p, id := s.ops[o].p, s.ops[o].id;
    NoRivals(s, o, id, p);
    var s1 := Write(s, id, Record(p, None, Pending));
    assert forall x :: x in s.ops && PreSpawn(s.ops[x], s.ops[x].id) ==> !Claimable(s1.records, s.ops[x].id);
    var s' := Goto(s1, o, Choosing(id, p, []));
    forall x, m | x in s'.ops && s'.ops[x].Choosing? && Live(s', s'.ops[x].p, s'.ops[x].id, m)
      ensures m in s'.ops[x].refs
    {
      assert Live(s, s'.ops[x].p, s'.ops[x].id, m);
    }
  }

  lemma PendingStaysClaimed(s: State, a: Action)
    requires Inv(s) && Disciplined(s, a)
    ensures forall id :: CreatePending(s, id) ==> !Claimable(Step(s, a).records, id)
  {
    forall id | CreatePending(s, id)
      ensures !Claimable(Step(s, a).records, id)
    {
      var o :| o in s.ops && PreSpawn(s.ops[o], id);
      assert !Claimable(s.records, id);
      assert !Frees(s, a, id);
    }
  }

  lemma CreateKeepsInv(s: State, a: Action)
    requires Inv(s) && Disciplined(s, a) && Enabled(s, a)
    requires a.CreateList? || a.CreateListFails? || a.CreateAdopt? || a.CreateSkip? || a.CreateKeyFails? || a.CreateSpawn? || a.CreateSpawnFails?
    ensures Inv(Step(s, a))
  {
    match a {
      case CreateList(o, refs) => ListKeepsInv(s, o, refs);
      case CreateListFails(o) => ListKeepsInv(s, o, []);
      case CreateAdopt(o, st) => MoveKeepsInv(s, o, Rented(s.ops[o].id, s.ops[o].p, s.ops[o].refs[0], st));
      case CreateSkip(o) =>
        ListKeepsInv(s, o, s.ops[o].refs[1..]);
      case CreateKeyFails(o) => EndKeepsInv(s, o);
      case CreateSpawn(o, st) => RentKeepsInv(s, o, Rented(s.ops[o].id, s.ops[o].p, s.next, st));
      case CreateSpawnFails(o, leaked) =>
        RentKeepsInv(s, o, SpawnFailed(s.ops[o].id, s.ops[o].p));
        MoveKeepsInv(s, o, SpawnFailed(s.ops[o].id, s.ops[o].p));
    }
  }

  /** Steps that write a record and end or advance a non-creating operation. */
  lemma RecordStepKeepsInv(s: State, a: Action)
    requires Inv(s) && Disciplined(s, a) && Enabled(s, a)
    requires a.CreatePatch? || a.DestroyMark? || a.DestroySettle? || a.HealTerminate? || a.DescribePatch? || a.Wipe?
    ensures Inv(Step(s, a))
  {
    PendingStaysClaimed(s, a);
    var s1 := s.(records := Step(s, a).records);
    WriteKeepsInv(s, s1.records);
    if a.DestroyMark? {
      MoveKeepsInv(s1, a.o, Step(s, a).ops[a.o]);
    } else if !a.Wipe? {
      EndKeepsInv(s1, a.o);
    }
  }

  lemma TerminateKeepsInv(s: State, o: nat, ok: bool, killed: bool)
    requires Inv(s) && Enabled(s, DestroyCall(o, ok, killed))
    ensures Inv(Step(s, DestroyCall(o, ok, killed)))
  {
    var op := s.ops[o];
    if op.force || op.pid == None {
      MoveKeepsInv(s, o, Settling(op.id, true));
    } else {
      LossKeepsInv(s, op.pid.value);
      MoveKeepsInv(s.(machines := s.machines - {op.pid.value}), o, Settling(op.id, ok));
      MoveKeepsInv(s, o, Settling(op.id, ok));
    }
  }

  /** Steps that only read, and remember what they read. */
  lemma ReadStepKeepsInv(s: State, a: Action)
    requires Inv(s) && Enabled(s, a)
    requires a.HealBegin? || a.HealList? || a.HealDescribe? || a.DescribeBegin? || a.DescribeGone? || a.DescribeFresh? || a.PlaceRead?
    ensures Inv(Step(s, a))
  {
    MoveKeepsInv(s, a.o, Step(s, a).ops[a.o]);
  }

  lemma ClaimStepKeepsInv(s: State, a: Action)
    requires Inv(s) && PlacesSafely(s, a) && Enabled(s, a) && (a.CreateClaim? || a.PlaceClaim?)
    ensures Inv(Step(s, a))
  {
    if a.CreateClaim? {
      ClaimKeepsInv(s, a.o, a.id, a.p);
    } else {
      PlaceKeepsInv(s, a.o);
      PlaceClaimIs(s, a.o);
    }
  }

  /** Operations that end, and machines that do. */
  lemma EndStepKeepsInv(s: State, a: Action)
    requires Inv(s) && Enabled(s, a) && (a.GiveUp? || a.Crash? || a.Vanish?)
    ensures Inv(Step(s, a))
  {
    if a.Vanish? {
      LossKeepsInv(s, a.m);
    } else {
      EndKeepsInv(s, a.o);
    }
  }

  lemma StepKeepsInv(s: State, a: Action)
    requires Inv(s) && Disciplined(s, a)
    ensures Inv(Step(s, a))
  {
    if Enabled(s, a) {
      match a {
        case CreateClaim(_, _, _) => ClaimStepKeepsInv(s, a);
        case PlaceClaim(_) => ClaimStepKeepsInv(s, a);
        case CreatePatch(_) => RecordStepKeepsInv(s, a);
        case DestroyMark(_, _, _, _) => RecordStepKeepsInv(s, a);
        case DestroySettle(_) => RecordStepKeepsInv(s, a);
        case HealTerminate(_) => RecordStepKeepsInv(s, a);
        case DescribePatch(_) => RecordStepKeepsInv(s, a);
        case Wipe(_) => RecordStepKeepsInv(s, a);
        case DestroyCall(o, ok, killed) => TerminateKeepsInv(s, o, ok, killed);
        case GiveUp(_) => EndStepKeepsInv(s, a);
        case Crash(_) => EndStepKeepsInv(s, a);
        case Vanish(_) => EndStepKeepsInv(s, a);
        case HealBegin(_, _) => ReadStepKeepsInv(s, a);
        case HealList(_, _) => ReadStepKeepsInv(s, a);
        case HealDescribe(_, _) => ReadStepKeepsInv(s, a);
        case DescribeBegin(_, _) => ReadStepKeepsInv(s, a);
        case DescribeGone(_) => ReadStepKeepsInv(s, a);
        case DescribeFresh(_, _) => ReadStepKeepsInv(s, a);
        case PlaceRead(_, _, _, _) => ReadStepKeepsInv(s, a);
        case _ => CreateKeepsInv(s, a);
      }
    }
  }

  lemma {:induction false} RunKeepsInv(s: State, run: seq<Action>)
    requires Inv(s) && DisciplinedRun(s, run)
    ensures Inv(Exec(s, run))
    decreases |run|
  {
    if run != [] {
      StepKeepsInv(s, run[0]);
      RunKeepsInv(Step(s, run[0]), run[1..]);
    }
  }

  /** Over every disciplined run, crashes, dying machines, lost state files and
      failed or half-failed provider calls included, at most one live machine
      carries a given id on a given provider. */
  lemma OneMachinePerId(s: State, run: seq<Action>, m: Machine, n: Machine)
    requires Init(s) && DisciplinedRun(s, run)
    ensures var e := Exec(s, run);
            m in e.machines && n in e.machines && e.machines[m] == e.machines[n] ==> m == n
  {
    RunKeepsInv(s, run);
  }
}
