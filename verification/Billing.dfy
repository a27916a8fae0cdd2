/** No bill after TERMINATED: what a record says about the machine behind it in runs
    without crashes, force or overlap (internal/provisioners/service.go). */
module Billing {
  import opened Common
  import opened Lifecycle

  // ----- No bill after TERMINATED -----------------------------------------

  predicate Busy(s: State, id: Id) {
    exists o :: o in s.ops && s.ops[o].id == id
  }

  /** Crash-free, unforced, one operation per id at a time, and a provider whose
      answers are true: listings leave no live machine out, a successful Terminate
      leaves nothing, a failed Spawn rented nothing, a machine reported gone or
      TERMINATED is not live. */
  ghost predicate Honest(s: State, a: Action) {
    Accurate(s, a) && (Enabled(s, a) ==>
    match a
    case CreateClaim(_, id, _) => !Busy(s, id)
    case DestroyMark(_, id, force, _) => !Busy(s, id) && !force
    case HealBegin(_, id) => !Busy(s, id)
    case DescribeBegin(_, id) => !Busy(s, id)
    case PlaceRead(_, id, _, readOk) => !Busy(s, id) && readOk
    case CreateAdopt(o, st) => st == Terminated ==> !Live(s, s.ops[o].p, s.ops[o].id, s.ops[o].refs[0])
    case CreateSpawn(_, st) => st != Terminated
    case CreateSpawnFails(_, leaked) => !leaked
    case DestroyCall(o, ok, killed) =>
      ok && s.ops[o].pid.Some? && s.ops[o].pid.value in s.machines ==> killed
    case HealList(o, refs) => Complete(s, s.ops[o].rec.provider, s.ops[o].id, refs)
    case HealDescribe(o, st) => st == Terminated ==> !Live(s, s.ops[o].rec.provider, s.ops[o].id, s.ops[o].refs[0])
    case DescribeGone(o) =>
      s.ops[o].rec.pid.Some? ==> !Live(s, s.ops[o].rec.provider, s.ops[o].id, s.ops[o].rec.pid.value)
    case DescribeFresh(o, st) =>
      st == Terminated ==> !Live(s, s.ops[o].rec.provider, s.ops[o].id, s.ops[o].rec.pid.value)
    case Crash(_) => false
    case Wipe(_) => false
    case _ => true)
  }

  /** The step takes the first machine listed for the one behind the record. */
  predicate TakesFirst(s: State, a: Action) { Enabled(s, a) && (a.HealDescribe? || a.CreateAdopt?) }

  function ProviderOf(op: Op): Provider
    requires op.HealListed? || op.Choosing?
  {
    if op.HealListed? then op.rec.provider else op.p
  }

  /** If a machine is live, it is the one taken. Create sees to that by passing over
      machines that are not active; the self-heal takes the first, whatever its
      state. */
  ghost predicate TakesTheLiveOne(s: State, a: Action) {
    TakesFirst(s, a) ==>
      forall m: Machine :: Live(s, ProviderOf(s.ops[a.o]), s.ops[a.o].id, m) ==> s.ops[a.o].refs[0] == m
  }

  ghost predicate Orderly(s: State, a: Action) { Honest(s, a) && TakesTheLiveOne(s, a) }

  ghost predicate OrderlyRun(s: State, run: seq<Action>)
    decreases |run|
  {
    run == [] || (Orderly(s, run[0]) && OrderlyRun(Step(s, run[0]), run[1..]))
  }

  /** The record knows the machine that is running, and does not call it gone. */
  ghost predicate Tracked(s: State, id: Id)
    requires id in s.records
  {
    forall m: Machine :: Live(s, s.records[id].provider, id, m) ==> s.records[id].state != Terminated && s.records[id].pid == Some(m)
  }

  predicate Creating(op: Op) { op.Claimed? || op.Choosing? || op.Rented? }

  ghost predicate OpOk(s: State, op: Op) {
    if op.PlaceReady? then op.id !in s.records else
    op.id in s.records &&
    var r := s.records[op.id];
    match op
    case Claimed(_, p) => r == Record(p, None, Pending)
    case Choosing(_, p, _) => r == Record(p, None, Pending)
    case Rented(_, p, m, st) => r == Record(p, None, Pending) && forall x :: Live(s, p, op.id, x) ==> x == m && st != Terminated
    case SpawnFailed(_, p) => r == Record(p, None, Pending) && forall x :: !Live(s, p, op.id, x)
    case Marked(_, p, pid, force) => r == Record(p, pid, Terminating) && !force
    case Settling(_, ok) => r.state == Terminating && (ok ==> forall x :: !Live(s, r.provider, op.id, x))
    case HealRead(_, rec) => r == rec
    case HealListed(_, rec, refs) =>
      r == rec && forall x :: Live(s, r.provider, op.id, x) ==> x in refs
    case DescRead(_, rec) => r == rec
    case DescGone(_, rec) => r == rec && forall x :: !Live(s, r.provider, op.id, x)
    case Refreshed(_, p, m, st) => r.provider == p && forall x :: Live(s, p, op.id, x) ==> x == m && st != Terminated
  }

  /** No machine carries the id, on any provider. */
  ghost predicate Unrented(s: State, id: Id) {
    forall m: Machine :: m in s.machines ==> s.machines[m].id != id
  }

  /** Everything the invariant says about one id. */
  ghost predicate Local(s: State, id: Id) {
    && (id !in s.records ==> Unrented(s, id))
    && (id in s.records ==> Tracked(s, id) || exists o :: o in s.ops && s.ops[o].id == id && Creating(s.ops[o]))
    && forall o :: o in s.ops && s.ops[o].id == id ==> OpOk(s, s.ops[o])
  }

  ghost predicate Serial(s: State) {
    forall o, q :: o in s.ops && q in s.ops && s.ops[o].id == s.ops[q].id ==> o == q
  }

  ghost predicate BillInv(s: State) {
    Inv(s) && Serial(s) && forall id :: Local(s, id)
  }

  /** Nothing about this id changed, except that machines may have died. */
  ghost predicate SameFor(s: State, s': State, id: Id) {
    && (id in s.records <==> id in s'.records) && (id in s.records ==> s.records[id] == s'.records[id])
    && (forall p, m :: Live(s', p, id, m) ==> Live(s, p, id, m))
    && (forall o :: o in s.ops && s.ops[o].id == id ==> o in s'.ops && s'.ops[o] == s.ops[o])
    && forall o :: o in s'.ops && s'.ops[o].id == id ==> o in s.ops && s'.ops[o] == s.ops[o]
  }

  lemma LocalFrame(s: State, s': State, id: Id)
    requires SameFor(s, s', id) && Local(s, id)
    ensures Local(s', id)
  {
    forall o | o in s'.ops && s'.ops[o].id == id
      ensures OpOk(s', s'.ops[o])
    {
      assert OpOk(s, s.ops[o]);
    }
    if id !in s'.records {
      forall m: Machine | m in s'.machines
        ensures s'.machines[m].id != id
      {
        assert Live(s', s'.machines[m].provider, s'.machines[m].id, m);
        assert s'.machines[m].id == id ==> Live(s, s'.machines[m].provider, id, m);
      }
    } else if !Tracked(s', id) {
      assert !Tracked(s, id);
      var o :| o in s.ops && s.ops[o].id == id && Creating(s.ops[o]);
      assert o in s'.ops && s'.ops[o].id == id && Creating(s'.ops[o]);
    }
  }

  lemma OrderlyPlacesSafely(s: State, a: Action)
    requires BillInv(s)
    ensures PlacesSafely(s, a)
  {
    if a.PlaceClaim? && Enabled(s, a) {
      var op := s.ops[a.o];
      assert Local(s, op.id);
      assert OpOk(s, op);
      assert Unrented(s, op.id);
    }
  }

  /** Only an operation past its search frees its id. */
  lemma FreedByItsOperation(s: State, a: Action, id: Id)
    requires Frees(s, a, id) && Honest(s, a)
    ensures Enabled(s, a) && !a.Vanish? && !a.Wipe? && a.o in s.ops
    ensures s.ops[a.o].id == id && !s.ops[a.o].Claimed? && !s.ops[a.o].Choosing?
  {
  }

  lemma OrderlyIsDisciplined(s: State, a: Action)
    requires BillInv(s) && Orderly(s, a)
    ensures Disciplined(s, a)
  {
    OrderlyPlacesSafely(s, a);
    forall id | Frees(s, a, id)
      ensures !CreatePending(s, id)
    {
      FreedByItsOperation(s, a, id);
    }
  }

  /** The id a step acts on. */
  function Subject(s: State, a: Action): Id
    requires Enabled(s, a) && !a.Vanish?
  {
    if a.CreateClaim? || a.DestroyMark? || a.HealBegin? || a.DescribeBegin? || a.PlaceRead? || a.Wipe? then a.id
    else s.ops[a.o].id
  }

  /** An operation's step ends it or moves it on, and moves no other. */
  lemma StepOps(s: State, a: Action)
    requires Enabled(s, a) && !a.Vanish? && !a.Wipe?
    ensures var s' := Step(s, a);
            s'.ops == s.ops - {a.o}
            || (a.o in s'.ops && s'.ops[a.o].id == Subject(s, a) && s'.ops == s.ops[a.o := s'.ops[a.o]])
  {
  }

  /** Only the record acted on is written. */
  lemma StepRecords(s: State, a: Action, id: Id)
    requires Enabled(s, a) && (a.Vanish? || id != Subject(s, a))
    ensures id in s.records <==> id in Step(s, a).records
    ensures id in s.records ==> s.records[id] == Step(s, a).records[id]
  {
    match a {
      case CreateClaim(_, _, _) =>
      case CreatePatch(_) =>
      case DestroyMark(_, _, _, _) =>
      case DestroySettle(_) =>
      case HealTerminate(_) =>
      case DescribePatch(_) =>
      case PlaceClaim(_) =>
      case Wipe(_) =>
      case _ => assert Step(s, a).records == s.records;
    }
  }

  /** A machine that appears carries the tag of the id acted on. */
  lemma StepMachines(s: State, a: Action, m: Machine)
    requires Enabled(s, a) && m in Step(s, a).machines
    ensures (m in s.machines && Step(s, a).machines[m] == s.machines[m])
         || (!a.Vanish? && Step(s, a).machines[m].id == Subject(s, a))
  {
  }

  lemma OthersUntouched(s: State, a: Action, id: Id)
    requires Enabled(s, a) && (a.Vanish? || id != Subject(s, a))
    ensures SameFor(s, Step(s, a), id)
  {
    var s' := Step(s, a);
    StepRecords(s, a, id);
    forall p, m | Live(s', p, id, m)
      ensures Live(s, p, id, m)
    {
      StepMachines(s, a, m);
    }
    if !a.Vanish? && !a.Wipe? {
      StepOps(s, a);
    }
  }

  /** A step that starts an operation names an id nobody is working on. */
  lemma StarterIsFirst(s: State, a: Action)
    requires Orderly(s, a) && Enabled(s, a) && !a.Vanish? && !a.Wipe? && a.o !in s.ops
    ensures !Busy(s, Subject(s, a))
  {
  }

  lemma MoveKeepsSerial(s: State, s': State, o: nat, id: Id)
    requires Serial(s) && if o in s.ops then s.ops[o].id == id else !Busy(s, id)
    requires s'.ops == s.ops - {o} || (o in s'.ops && s'.ops[o].id == id && s'.ops == s.ops[o := s'.ops[o]])
    ensures Serial(s')
  {
  }

  lemma StepKeepsSerial(s: State, a: Action)
    requires Serial(s) && Enabled(s, a)
    requires !a.Vanish? && !a.Wipe? && a.o !in s.ops ==> !Busy(s, Subject(s, a))
    ensures Serial(Step(s, a))
  {
    if !a.Vanish? && !a.Wipe? {
      StepOps(s, a);
      MoveKeepsSerial(s, Step(s, a), a.o, Subject(s, a));
    }
  }

  lemma KnownOp(s: State, o: nat)
    requires BillInv(s) && o in s.ops
    ensures OpOk(s, s.ops[o]) && (s.ops[o].PlaceReady? || Creating(s.ops[o]) || Tracked(s, s.ops[o].id))
    ensures forall q :: q in s.ops && q != o ==> s.ops[q].id != s.ops[o].id
  {
    assert Local(s, s.ops[o].id);
  }

  lemma KnownIdle(s: State, id: Id)
    requires BillInv(s) && !Busy(s, id) && id in s.records
    ensures Tracked(s, id)
  {
    assert Local(s, id);
  }

  /** An operation on an id that was quiet, or the next phase of the one there. */
  lemma LocalByOp(s: State, o: nat)
    requires o in s.ops && OpOk(s, s.ops[o])
    requires if s.ops[o].PlaceReady? then Unrented(s, s.ops[o].id) else Creating(s.ops[o]) || Tracked(s, s.ops[o].id)
    requires forall q :: q in s.ops && q != o ==> s.ops[q].id != s.ops[o].id
    ensures Local(s, s.ops[o].id)
  {
  }

  /** The operation on the id has ended. */
  lemma LocalIdle(s: State, id: Id)
    requires id in s.records && Tracked(s, id)
    requires forall q :: q in s.ops ==> s.ops[q].id != id
    ensures Local(s, id)
  {
  }

  // What each step leaves for the id it acts on.

  lemma ClaimLocal(s: State, o: nat, id: Id, p: Provider)
    requires BillInv(s) && Orderly(s, CreateClaim(o, id, p)) && Enabled(s, CreateClaim(o, id, p))
    ensures Local(Step(s, CreateClaim(o, id, p)), id)
  {
    LocalByOp(Step(s, CreateClaim(o, id, p)), o);
  }

  lemma ListLocal(s: State, o: nat, refs: seq<Machine>)
    requires BillInv(s) && Orderly(s, CreateList(o, refs)) && Enabled(s, CreateList(o, refs))
    ensures Local(Step(s, CreateList(o, refs)), s.ops[o].id)
  {
    KnownOp(s, o);
    LocalByOp(Step(s, CreateList(o, refs)), o);
  }

  lemma ListFailsLocal(s: State, o: nat)
    requires BillInv(s) && Enabled(s, CreateListFails(o))
    ensures Local(Step(s, CreateListFails(o)), s.ops[o].id)
  {
    KnownOp(s, o);
    LocalByOp(Step(s, CreateListFails(o)), o);
  }

  lemma SkipLocal(s: State, o: nat)
    requires BillInv(s) && Enabled(s, CreateSkip(o))
    ensures Local(Step(s, CreateSkip(o)), s.ops[o].id)
  {
    KnownOp(s, o);
    LocalByOp(Step(s, CreateSkip(o)), o);
  }

  /** The machine adopted is the only one there can be. */
  lemma AdoptLocal(s: State, o: nat, st: InstanceState)
    requires BillInv(s) && Orderly(s, CreateAdopt(o, st)) && Enabled(s, CreateAdopt(o, st))
    ensures Local(Step(s, CreateAdopt(o, st)), s.ops[o].id)
  {
    KnownOp(s, o);
    var s' := Step(s, CreateAdopt(o, st));
    forall x | Live(s', s.ops[o].p, s.ops[o].id, x)
      ensures x == s.ops[o].refs[0] && st != Terminated
    {
      assert Live(s, ProviderOf(s.ops[o]), s.ops[o].id, x);
    }
    LocalByOp(s', o);
  }

  lemma SpawnLocal(s: State, o: nat, st: InstanceState)
    requires BillInv(s) && Orderly(s, CreateSpawn(o, st)) && Enabled(s, CreateSpawn(o, st))
    ensures Local(Step(s, CreateSpawn(o, st)), s.ops[o].id)
  {
    KnownOp(s, o);
    var s' := Step(s, CreateSpawn(o, st));
    forall x | Live(s', s.ops[o].p, s.ops[o].id, x)
      ensures x == s.next
    {
      assert !Live(s, s.ops[o].p, s.ops[o].id, x);
    }
    LocalByOp(s', o);
  }

  lemma NoRentLocal(s: State, a: Action)
    requires BillInv(s) && Orderly(s, a) && Enabled(s, a) && (a.CreateKeyFails? || a.CreateSpawnFails?)
    ensures Local(Step(s, a), s.ops[a.o].id)
  {
    KnownOp(s, a.o);
    var s', p, id := Step(s, a), s.ops[a.o].p, s.ops[a.o].id;
    forall x
      ensures !Live(s', p, id, x)
    {
      assert !Live(s, p, id, x);
    }
    if a.CreateKeyFails? {
      LocalIdle(s', id);
    } else {
      LocalByOp(s', a.o);
    }
  }

  /** Every final write leaves the record tracking what is alive. */
  lemma PatchLocal(s: State, a: Action)
    requires BillInv(s) && Orderly(s, a) && Enabled(s, a)
    requires a.CreatePatch? || a.DescribePatch? || a.DestroySettle? || a.HealTerminate?
    ensures Local(Step(s, a), s.ops[a.o].id)
  {
    KnownOp(s, a.o);
    var s', id := Step(s, a), s.ops[a.o].id;
    forall x: Machine | Live(s', s'.records[id].provider, id, x)
      ensures s'.records[id].state != Terminated && s'.records[id].pid == Some(x)
    {
      assert Live(s, s'.records[id].provider, id, x);
    }
    LocalIdle(s', id);
  }

  lemma MarkLocal(s: State, a: Action)
    requires BillInv(s) && Orderly(s, a) && Enabled(s, a) && a.DestroyMark?
    ensures Local(Step(s, a), a.id)
  {
    KnownIdle(s, a.id);
    var s' := Step(s, a);
    forall x: Machine | Live(s', s'.records[a.id].provider, a.id, x)
      ensures s'.records[a.id].pid == Some(x)
    {
      assert Live(s, s.records[a.id].provider, a.id, x);
    }
    LocalByOp(s', a.o);
  }

  lemma TerminateLocal(s: State, o: nat, ok: bool, killed: bool)
    requires BillInv(s) && Orderly(s, DestroyCall(o, ok, killed)) && Enabled(s, DestroyCall(o, ok, killed))
    ensures Local(Step(s, DestroyCall(o, ok, killed)), s.ops[o].id)
  {
    KnownOp(s, o);
    var s', p, id := Step(s, DestroyCall(o, ok, killed)), s.ops[o].p, s.ops[o].id;
    forall x: Machine | Live(s', p, id, x)
      ensures s.ops[o].pid == Some(x) && !s'.ops[o].ok
    {
      assert Live(s, p, id, x);
    }
    LocalByOp(s', o);
  }

  lemma ReadLocal(s: State, a: Action)
    requires BillInv(s) && Orderly(s, a) && Enabled(s, a) && (a.HealBegin? || a.DescribeBegin?)
    ensures Local(Step(s, a), a.id)
  {
    KnownIdle(s, a.id);
    var s' := Step(s, a);
    assert forall x: Machine :: Live(s', s'.records[a.id].provider, a.id, x) ==> Live(s, s.records[a.id].provider, a.id, x);
    LocalByOp(s', a.o);
  }

  lemma HealListLocal(s: State, o: nat, refs: seq<Machine>)
    requires BillInv(s) && Orderly(s, HealList(o, refs)) && Enabled(s, HealList(o, refs))
    ensures Local(Step(s, HealList(o, refs)), s.ops[o].id)
  {
    KnownOp(s, o);
    var s', id := Step(s, HealList(o, refs)), s.ops[o].id;
    var p := s.records[id].provider;
    assert forall x: Machine :: Live(s', p, id, x) == Live(s, p, id, x);
    LocalByOp(s', o);
  }

  /** The machine described is the one that is live, if any is. */
  lemma HealDescribeLocal(s: State, o: nat, st: InstanceState)
    requires BillInv(s) && Orderly(s, HealDescribe(o, st)) && Enabled(s, HealDescribe(o, st))
    ensures Local(Step(s, HealDescribe(o, st)), s.ops[o].id)
  {
    KnownOp(s, o);
    var s', id := Step(s, HealDescribe(o, st)), s.ops[o].id;
    var p := s.records[id].provider;
    forall x: Machine | Live(s', p, id, x)
      ensures Live(s, p, id, x) && x == s.ops[o].refs[0] && st != Terminated
    {
      assert Live(s, ProviderOf(s.ops[o]), id, x);
    }
    LocalByOp(s', o);
  }

  lemma AnswerLocal(s: State, a: Action)
    requires BillInv(s) && Orderly(s, a) && Enabled(s, a)
    requires a.DescribeGone? || a.DescribeFresh?
    ensures Local(Step(s, a), s.ops[a.o].id)
  {
    KnownOp(s, a.o);
    var s', id := Step(s, a), s.ops[a.o].id;
    assert forall x: Machine :: Live(s', s.records[id].provider, id, x) == Live(s, s.records[id].provider, id, x);
    LocalByOp(s', a.o);
  }

  /** A placement reads no record, so there is no machine; then it claims one. */
  lemma PlaceLocal(s: State, a: Action)
    requires BillInv(s) && Orderly(s, a) && Enabled(s, a) && (a.PlaceRead? || a.PlaceClaim?)
    ensures Local(Step(s, a), Subject(s, a))
  {
    var s' := Step(s, a);
    assert Local(s, Subject(s, a));
    if a.PlaceClaim? {
      KnownOp(s, a.o);
    }
    LocalByOp(s', a.o);
  }

  lemma GiveUpLocal(s: State, o: nat)
    requires BillInv(s) && Enabled(s, GiveUp(o))
    ensures Local(Step(s, GiveUp(o)), s.ops[o].id)
  {
    KnownOp(s, o);
    var s', id := Step(s, GiveUp(o)), s.ops[o].id;
    assert forall x: Machine :: Live(s', s.records[id].provider, id, x) == Live(s, s.records[id].provider, id, x);
    LocalIdle(s', id);
  }

  lemma CreateSubjectLocal(s: State, a: Action)
    requires BillInv(s) && Orderly(s, a) && Enabled(s, a)
    requires a.CreateList? || a.CreateListFails? || a.CreateAdopt? || a.CreateSkip? || a.CreateKeyFails? || a.CreateSpawn? || a.CreateSpawnFails?
    ensures Local(Step(s, a), s.ops[a.o].id)
  {
    match a {
      case CreateList(o, refs) => ListLocal(s, o, refs);
      case CreateAdopt(o, st) => AdoptLocal(s, o, st);
      case CreateSkip(o) => SkipLocal(s, o);
      case CreateSpawn(o, st) => SpawnLocal(s, o, st);
      case CreateKeyFails(_) => NoRentLocal(s, a);
      case CreateSpawnFails(_, _) => NoRentLocal(s, a);
      case CreateListFails(_) => ListFailsLocal(s, a.o);
    }
  }

  lemma ReaderSubjectLocal(s: State, a: Action)
    requires BillInv(s) && Orderly(s, a) && Enabled(s, a)
    requires a.HealBegin? || a.DescribeBegin? || a.GiveUp? || a.HealList? || a.HealDescribe? || a.DescribeGone? || a.DescribeFresh?
    ensures Local(Step(s, a), Subject(s, a))
  {
    if a.HealBegin? || a.DescribeBegin? {
      ReadLocal(s, a);
    } else if a.GiveUp? {
      GiveUpLocal(s, a.o);
    } else if a.HealList? {
      HealListLocal(s, a.o, a.refs);
    } else if a.HealDescribe? {
      HealDescribeLocal(s, a.o, a.st);
    } else {
      AnswerLocal(s, a);
    }
  }

  lemma SubjectLocal(s: State, a: Action)
    requires BillInv(s) && Orderly(s, a) && Enabled(s, a) && !a.Vanish?
    ensures Local(Step(s, a), Subject(s, a))
  {
    if a.CreateClaim? {
      ClaimLocal(s, a.o, a.id, a.p);
    } else if a.PlaceRead? || a.PlaceClaim? {
      PlaceLocal(s, a);
    } else if a.DestroyMark? {
      MarkLocal(s, a);
    } else if a.DestroyCall? {
      TerminateLocal(s, a.o, a.ok, a.killed);
    } else if a.CreatePatch? || a.DescribePatch? || a.DestroySettle? || a.HealTerminate? {
      PatchLocal(s, a);
    } else if a.HealBegin? || a.DescribeBegin? || a.GiveUp? || a.HealList? || a.HealDescribe? || a.DescribeGone? || a.DescribeFresh? {
      ReaderSubjectLocal(s, a);
    } else {
      CreateSubjectLocal(s, a);
    }
  }

  lemma StepKeepsBillInv(s: State, a: Action)
    requires BillInv(s) && Orderly(s, a)
    ensures BillInv(Step(s, a))
  {
    if Enabled(s, a) {
      OrderlyIsDisciplined(s, a);
      StepKeepsInv(s, a);
      if !a.Vanish? && !a.Wipe? && a.o !in s.ops {
        StarterIsFirst(s, a);
      }
      StepKeepsSerial(s, a);
      forall id
        ensures Local(Step(s, a), id)
      {
        if a.Vanish? || id != Subject(s, a) {
          OthersUntouched(s, a, id);
          LocalFrame(s, Step(s, a), id);
        } else {
          SubjectLocal(s, a);
        }
      }
    }
  }

  lemma {:induction false} RunKeepsBillInv(s: State, run: seq<Action>)
    requires BillInv(s) && OrderlyRun(s, run)
    ensures BillInv(Exec(s, run))
    decreases |run|
  {
    if run != [] {
      StepKeepsBillInv(s, run[0]);
      RunKeepsBillInv(Step(s, run[0]), run[1..]);
    }
  }

  /** No bill after TERMINATED: in every orderly run, a record that says
      TERMINATED has no live machine behind it on its provider. */
  lemma NoBillAfterTerminated(s: State, run: seq<Action>, id: Id, m: Machine)
    requires Init(s) && OrderlyRun(s, run)
    requires var e := Exec(s, run); id in e.records && e.records[id].state == Terminated
    ensures !Live(Exec(s, run), Exec(s, run).records[id].provider, id, m)
  {
    RunKeepsBillInv(s, run);
    var e := Exec(s, run);
    assert Local(e, id);
  }

  /** In a disciplined run a Create that is about to rent has no live machine to
      adopt: one left alive by a failed terminate is never duplicated. */
  lemma SpawnsOnlyWhenNoneLive(s: State, run: seq<Action>, o: nat, st: InstanceState, m: Machine)
    requires Init(s) && DisciplinedRun(s, run) && Enabled(Exec(s, run), CreateSpawn(o, st))
    ensures var e := Exec(s, run); !Live(e, e.ops[o].p, e.ops[o].id, m)
  {
    RunKeepsInv(s, run);
  }

  /** The next Create after a terminate that failed takes the machine over. */
  lemma FailedTerminateIsAdopted(s: State, o: nat, id: Id, p: Provider, m: Machine, st: InstanceState)
    requires Inv(s) && o !in s.ops && id in s.records && s.records[id].state == Failed && Live(s, p, id, m)
    ensures var s1 := Step(s, CreateClaim(o, id, p));
            var s2 := Step(s1, CreateList(o, [m]));
            var e := Step(Step(s2, CreateAdopt(o, st)), CreatePatch(o));
            && Accurate(s1, CreateList(o, [m]))
            && e.machines == s.machines && e.records == s.records[id := Record(p, Some(m), st)]
  {
    var s1 := Step(s, CreateClaim(o, id, p));
    forall x | Live(s1, p, id, x)
      ensures x in [m]
    {
      assert Live(s, p, id, x);
    }
  }

  // ----- A bill after TERMINATED ------------------------------------------

  /** The record says TERMINATED and a machine with its tag is running. */
  ghost predicate Billed(s: State, id: Id) {
    id in s.records && s.records[id].state == Terminated && exists m :: Live(s, s.records[id].provider, id, m)
  }

  /** What follows the taking: the write, and unless that already says TERMINATED, a
      Destroy of the machine that was taken. */
  function WriteThenDestroy(a: Action, id: Id): seq<Action>
    requires a.HealDescribe? || a.CreateAdopt?
  {
    [WriteOf(a)]
    + if a.st == Terminated then [] else [DestroyMark(a.o, id, false, None), DestroyCall(a.o, true, true), DestroySettle(a.o)]
  }

  function WriteOf(a: Action): Action
    requires a.HealDescribe? || a.CreateAdopt?
  {
    if a.HealDescribe? then DescribePatch(a.o) else CreatePatch(a.o)
  }

  function OpAfter(s: State, a: Action): Op
    requires TakesFirst(s, a)
  {
    var op := s.ops[a.o];
    if a.HealDescribe? then Refreshed(op.id, ProviderOf(op), op.refs[0], a.st) else Rented(op.id, ProviderOf(op), op.refs[0], a.st)
  }

  lemma TakeIs(s: State, a: Action)
    requires TakesFirst(s, a)
    ensures Step(s, a) == Goto(s, a.o, OpAfter(s, a))
  {
  }

  lemma WriteIs(s: State, a: Action, op: Op)
    requires (a.HealDescribe? && op.Refreshed?) || (a.CreateAdopt? && op.Rented?)
    ensures Step(Goto(s, a.o, op), WriteOf(a)).records == AfterPatch(s.records, op.id, Record(op.p, Some(op.m), op.st))
    ensures Step(Goto(s, a.o, op), WriteOf(a)).machines == s.machines && a.o !in Step(Goto(s, a.o, op), WriteOf(a)).ops
  {
  }

  lemma MarkIs(s: State, o: nat, id: Id)
    requires o !in s.ops && id in s.records && s.records[id].state != Terminated && s.records[id].pid.Some?
    ensures var r := s.records[id];
            Step(s, DestroyMark(o, id, false, None))
            == Goto(Write(s, id, r.(state := Terminating)), o, Marked(id, r.provider, r.pid, false))
  {
  }

  lemma CallIs(s: State, o: nat, id: Id, p: Provider, pid: Machine, m: Machine)
    requires o in s.ops && s.ops[o] == Marked(id, p, Some(pid), false) && pid != m && Live(s, p, id, m)
    ensures var s' := Step(s, DestroyCall(o, true, true));
            s'.records == s.records && o in s'.ops && s'.ops[o] == Settling(id, true) && Live(s', p, id, m)
  {
  }

  lemma SettleIs(s: State, o: nat, id: Id)
    requires o in s.ops && s.ops[o] == Settling(id, true)
    ensures var s' := Step(s, DestroySettle(o)); s'.records == AfterSettle(s.records, id, true) && s'.machines == s.machines
  {
  }

  lemma ThreeInARow(s: State, a: Action, b: Action, c: Action)
    ensures Exec(s, [a, b, c]) == Step(Step(Step(s, a), b), c)
  {
    PairInARow(Step(s, a), b, c);
    assert [a, b, c][1..] == [b, c];
  }

  /** Destroying the machine named in a record leaves any other one running. */
  lemma DestroyLeavesOthers(s: State, o: nat, id: Id, m: Machine)
    requires o !in s.ops && id in s.records && s.records[id].state != Terminated && s.records[id].pid.Some?
    requires s.records[id].pid != Some(m) && Live(s, s.records[id].provider, id, m)
    ensures Billed(Exec(s, [DestroyMark(o, id, false, None), DestroyCall(o, true, true), DestroySettle(o)]), id)
  {
    var r := s.records[id];
    var s1 := Goto(Write(s, id, r.(state := Terminating)), o, Marked(id, r.provider, r.pid, false));
    MarkIs(s, o, id);
    CallIs(s1, o, id, r.provider, r.pid.value, m);
    var s2 := Step(s1, DestroyCall(o, true, true));
    SettleIs(s2, o, id);
    ThreeInARow(s, DestroyMark(o, id, false, None), DestroyCall(o, true, true), DestroySettle(o));
    assert Live(Step(s2, DestroySettle(o)), r.provider, id, m);
  }

  /** The guard is tight in every state: when the step takes another machine than the
      live one, or calls that TERMINATED, the write leaves a bill at once or after a
      Destroy that succeeds. */
  lemma TakingAnotherLeavesABill(s: State, a: Action, m: Machine)
    requires TakesFirst(s, a) && Live(s, ProviderOf(s.ops[a.o]), s.ops[a.o].id, m)
    requires s.ops[a.o].refs[0] != m || a.st == Terminated
    ensures Billed(Exec(s, [a] + WriteThenDestroy(a, s.ops[a.o].id)), s.ops[a.o].id)
  {
    var op := s.ops[a.o];
    var id, p := op.id, ProviderOf(op);
    TakeIs(s, a);
    WriteIs(s, a, OpAfter(s, a));
    var s2 := Step(Step(s, a), WriteOf(a));
    assert Live(s2, p, id, m);
    PairInARow(s, a, WriteOf(a));
    if a.st == Terminated {
      assert [a] + WriteThenDestroy(a, id) == [a, WriteOf(a)];
    } else {
      var destroy := [DestroyMark(a.o, id, false, None), DestroyCall(a.o, true, true), DestroySettle(a.o)];
      DestroyLeavesOthers(s2, a.o, id, m);
      RunSplit(s, [a, WriteOf(a)], destroy);
      assert [a] + WriteThenDestroy(a, id) == [a, WriteOf(a)] + destroy;
    }
  }

  lemma PairInARow(s: State, a: Action, b: Action)
    ensures Exec(s, [a, b]) == Step(Step(s, a), b)
  {
    OneInARow(Step(s, a), b);
    assert [a, b][1..] == [b];
  }

  lemma {:induction false} RunSplit(s: State, first: seq<Action>, second: seq<Action>)
    ensures Exec(s, first + second) == Exec(Exec(s, first), second)
    ensures HonestRun(s, first) && HonestRun(Exec(s, first), second) ==> HonestRun(s, first + second)
    decreases |first|
  {
    if first == [] {
      assert first + second == second;
    } else {
      assert (first + second)[1..] == first[1..] + second;
      RunSplit(Step(s, first[0]), first[1..], second);
    }
  }

  ghost predicate HonestRun(s: State, run: seq<Action>)
    decreases |run|
  {
    run == [] || (Honest(s, run[0]) && HonestRun(Step(s, run[0]), run[1..]))
  }

  lemma HonestPair(s: State, a: Action, b: Action, s1: State, s2: State)
    requires Step(s, a) == s1 && Step(s1, b) == s2 && Honest(s, a) && Honest(s1, b)
    ensures HonestRun(s, [a, b]) && Exec(s, [a, b]) == s2
  {
    OneInARow(s1, b);
    assert [a, b][1..] == [b];
  }

  lemma OneInARow(s: State, a: Action)
    ensures Exec(s, [a]) == Step(s, a)
    ensures Honest(s, a) ==> HonestRun(s, [a])
  {
    assert |[a][1..]| == 0;
  }

  // A life told in pairs of steps: created, destroyed, created again while the dead
  // machine is still listed, and healed from the wrong one.

  function Pending0(id: Id, p: Provider): Records { map[id := Record(p, None, Pending)] }

  lemma ClaimAndList(s: State, id: Id, p: Provider, refs: seq<Machine>)
    requires s.ops == map[] && Claimable(s.records, id) && s.machines == map[]
    ensures HonestRun(s, [CreateClaim(0, id, p), CreateList(0, refs)])
    ensures Exec(s, [CreateClaim(0, id, p), CreateList(0, refs)])
         == s.(records := s.records[id := Record(p, None, Pending)], ops := map[0 := Choosing(id, p, refs)])
  {
    var s1 := s.(records := s.records[id := Record(p, None, Pending)], ops := map[0 := Claimed(id, p)]);
    HonestPair(s, CreateClaim(0, id, p), CreateList(0, refs), s1, s1.(ops := map[0 := Choosing(id, p, refs)]));
  }

  lemma SpawnAndRecord(s: State, id: Id, p: Provider, st: InstanceState)
    requires s.ops == map[0 := Choosing(id, p, [])] && s.machines == map[] && st != Terminated
    ensures HonestRun(s, [CreateSpawn(0, st), CreatePatch(0)])
    ensures Exec(s, [CreateSpawn(0, st), CreatePatch(0)])
         == State(s.records[id := Record(p, Some(s.next), st)], map[s.next := Tag(p, id)], s.next + 1, map[])
  {
    var s1 := State(s.records, map[s.next := Tag(p, id)], s.next + 1, map[0 := Rented(id, p, s.next, st)]);
    var s2 := State(s.records[id := Record(p, Some(s.next), st)], map[s.next := Tag(p, id)], s.next + 1, map[]);
    HonestPair(s, CreateSpawn(0, st), CreatePatch(0), s1, s2);
  }

  lemma MarkAndKill(id: Id, p: Provider)
    ensures var s := State(map[id := Record(p, Some(0), Active)], map[0 := Tag(p, id)], 1, map[]);
            && HonestRun(s, [DestroyMark(0, id, false, None), DestroyCall(0, true, true)])
            && Exec(s, [DestroyMark(0, id, false, None), DestroyCall(0, true, true)])
               == State(map[id := Record(p, Some(0), Terminating)], map[], 1, map[0 := Settling(id, true)])
  {
    var s := State(map[id := Record(p, Some(0), Active)], map[0 := Tag(p, id)], 1, map[]);
    var s1 := State(map[id := Record(p, Some(0), Terminating)], map[0 := Tag(p, id)], 1, map[0 := Marked(id, p, Some(0), false)]);
    HonestPair(s, DestroyMark(0, id, false, None), DestroyCall(0, true, true), s1,
               State(map[id := Record(p, Some(0), Terminating)], map[], 1, map[0 := Settling(id, true)]));
  }

  lemma SettleAndClaim(id: Id, p: Provider)
    ensures var s := State(map[id := Record(p, Some(0), Terminating)], map[], 1, map[0 := Settling(id, true)]);
            && HonestRun(s, [DestroySettle(0), CreateClaim(0, id, p)])
            && Exec(s, [DestroySettle(0), CreateClaim(0, id, p)]) == State(Pending0(id, p), map[], 1, map[0 := Claimed(id, p)])
  {
    var s := State(map[id := Record(p, Some(0), Terminating)], map[], 1, map[0 := Settling(id, true)]);
    HonestPair(s, DestroySettle(0), CreateClaim(0, id, p),
               State(map[id := Record(p, Some(0), Terminated)], map[], 1, map[]), State(Pending0(id, p), map[], 1, map[0 := Claimed(id, p)]));
  }

  /** The new Create is listed the dead machine too, and passes it over. */
  lemma ListAndSkip(id: Id, p: Provider)
    ensures var s := State(Pending0(id, p), map[], 1, map[0 := Claimed(id, p)]);
            && HonestRun(s, [CreateList(0, [0]), CreateSkip(0)])
            && Exec(s, [CreateList(0, [0]), CreateSkip(0)]) == s.(ops := map[0 := Choosing(id, p, [])])
  {
    var s := State(Pending0(id, p), map[], 1, map[0 := Claimed(id, p)]);
    var dead: seq<Machine> := [0];
    assert dead[1..] == [];
    HonestPair(s, CreateList(0, [0]), CreateSkip(0), s.(ops := map[0 := Choosing(id, p, [0])]), s.(ops := map[0 := Choosing(id, p, [])]));
  }

  lemma HealReads(s: State, id: Id, p: Provider)
    requires s == State(map[id := Record(p, Some(1), Pending)], map[1 := Tag(p, id)], 2, map[])
    ensures HonestRun(s, [HealBegin(0, id), HealList(0, [0, 1])])
    ensures Exec(s, [HealBegin(0, id), HealList(0, [0, 1])])
         == s.(ops := map[0 := HealListed(id, Record(p, Some(1), Pending), [0, 1])])
  {
    var r := Record(p, Some(1), Pending);
    HonestPair(s, HealBegin(0, id), HealList(0, [0, 1]), s.(ops := map[0 := HealRead(id, r)]), s.(ops := map[0 := HealListed(id, r, [0, 1])]));
  }

  lemma HealBuries(s: State, id: Id, p: Provider)
    requires s == State(map[id := Record(p, Some(1), Pending)], map[1 := Tag(p, id)], 2,
                        map[0 := HealListed(id, Record(p, Some(1), Pending), [0, 1])])
    ensures HonestRun(s, [HealDescribe(0, Terminated), DescribePatch(0)])
    ensures Exec(s, [HealDescribe(0, Terminated), DescribePatch(0)])
         == State(map[id := Record(p, Some(0), Terminated)], map[1 := Tag(p, id)], 2, map[])
  {
    HonestPair(s, HealDescribe(0, Terminated), DescribePatch(0), s.(ops := map[0 := Refreshed(id, p, 0, Terminated)]),
               State(map[id := Record(p, Some(0), Terminated)], map[1 := Tag(p, id)], 2, map[]));
  }

  function FirstLife(id: Id, p: Provider): seq<Action> {
    [CreateClaim(0, id, p), CreateList(0, [])] + [CreateSpawn(0, Active), CreatePatch(0)]
    + [DestroyMark(0, id, false, None), DestroyCall(0, true, true)]
  }

  function SecondLife(id: Id, p: Provider): seq<Action> {
    [DestroySettle(0), CreateClaim(0, id, p)] + [CreateList(0, [0]), CreateSkip(0)] + [CreateSpawn(0, Pending), CreatePatch(0)]
  }

  function Healed(id: Id): seq<Action> {
    [HealBegin(0, id), HealList(0, [0, 1])] + [HealDescribe(0, Terminated), DescribePatch(0)]
  }

  lemma FirstLifeEnds(s: State, id: Id, p: Provider)
    requires Init(s)
    ensures HonestRun(s, FirstLife(id, p))
    ensures Exec(s, FirstLife(id, p)) == State(map[id := Record(p, Some(0), Terminating)], map[], 1, map[0 := Settling(id, true)])
  {
    ClaimAndList(s, id, p, []);
    var a, b, c := [CreateClaim(0, id, p), CreateList(0, [])], [CreateSpawn(0, Active), CreatePatch(0)],
                   [DestroyMark(0, id, false, None), DestroyCall(0, true, true)];
    SpawnAndRecord(Exec(s, a), id, p, Active);
    RunSplit(s, a, b);
    MarkAndKill(id, p);
    assert Exec(s, a + b) == State(map[id := Record(p, Some(0), Active)], map[0 := Tag(p, id)], 1, map[]);
    RunSplit(s, a + b, c);
  }

  lemma SecondLifeEnds(id: Id, p: Provider)
    ensures var s := State(map[id := Record(p, Some(0), Terminating)], map[], 1, map[0 := Settling(id, true)]);
            && HonestRun(s, SecondLife(id, p))
            && Exec(s, SecondLife(id, p)) == State(map[id := Record(p, Some(1), Pending)], map[1 := Tag(p, id)], 2, map[])
  {
    var s := State(map[id := Record(p, Some(0), Terminating)], map[], 1, map[0 := Settling(id, true)]);
    var a, b, c := [DestroySettle(0), CreateClaim(0, id, p)], [CreateList(0, [0]), CreateSkip(0)], [CreateSpawn(0, Pending), CreatePatch(0)];
    SettleAndClaim(id, p);
    ListAndSkip(id, p);
    RunSplit(s, a, b);
    SpawnAndRecord(State(Pending0(id, p), map[], 1, map[0 := Choosing(id, p, [])]), id, p, Pending);
    assert Pending0(id, p)[id := Record(p, Some(1), Pending)] == map[id := Record(p, Some(1), Pending)];
    RunSplit(s, a + b, c);
  }

  /** From the empty state, crash-free, unforced, without overlap and with true answers
      only: a machine is created and destroyed, the id is created again, and the
      self-heal takes the dead machine, which the listing still names first, for
      the new one. The record says TERMINATED while the new machine runs. */
  lemma DeadMachineListedLeavesABill(s: State, id: Id, p: Provider)
    requires Init(s)
    ensures var run := FirstLife(id, p) + SecondLife(id, p) + Healed(id);
            HonestRun(s, run) && Billed(Exec(s, run), id)
  {
    FirstLifeEnds(s, id, p);
    SecondLifeEnds(id, p);
    RunSplit(s, FirstLife(id, p), SecondLife(id, p));
    var e := State(map[id := Record(p, Some(1), Pending)], map[1 := Tag(p, id)], 2, map[]);
    HealReads(e, id, p);
    HealBuries(Exec(e, [HealBegin(0, id), HealList(0, [0, 1])]), id, p);
    RunSplit(e, [HealBegin(0, id), HealList(0, [0, 1])], [HealDescribe(0, Terminated), DescribePatch(0)]);
    RunSplit(s, FirstLife(id, p) + SecondLife(id, p), Healed(id));
    assert Live(Exec(e, Healed(id)), p, id, 1);
  }

  /** Why crash-free: from the empty state, a crash between renting and recording
      loses the machine's id, and Destroy then reports TERMINATED without calling
      the provider. */
  lemma CrashLeavesABill(s: State, id: Id, p: Provider)
    requires Init(s)
    ensures var run := [CreateClaim(0, id, p), CreateList(0, [])] + ([CreateSpawn(0, Active), Crash(0)]
                       + [DestroyMark(0, id, false, None), DestroyCall(0, true, false), DestroySettle(0)]);
            Billed(Exec(s, run), id)
  {
    var create := [CreateClaim(0, id, p), CreateList(0, [])];
    ClaimAndList(s, id, p, []);
    CrashedThenDestroyed(Exec(s, create), id, p);
    RunSplit(s, create, [CreateSpawn(0, Active), Crash(0)] + [DestroyMark(0, id, false, None), DestroyCall(0, true, false), DestroySettle(0)]);
  }

  // ----- What a Destroy does ----------------------------------------------

  /** The id that a Destroy terminates: the one recorded, which is never replaced, or
      else the deployment's container id. It is recorded as well. */
  lemma DestroyMarksPid(s: State, o: nat, id: Id, force: bool, backfill: Option<Machine>)
    requires o !in s.ops && id in s.records && s.records[id].state != Terminated
    ensures var s', r := Step(s, DestroyMark(o, id, force, backfill)), s.records[id];
            var pid := if r.pid.Some? then r.pid else backfill;
            && s'.records == s.records[id := Record(r.provider, pid, Terminating)]
            && s'.ops == s.ops[o := Marked(id, r.provider, pid, force)]
            && s'.machines == s.machines
  {
  }

  /** An unforced Destroy that knows the machine, from the record or by backfill, and
      whose call succeeds: the machine is gone, the record says TERMINATED and names
      it, and nothing else has changed. */
  lemma DestroyTerminates(s: State, o: nat, id: Id, backfill: Option<Machine>, m: Machine)
    requires o !in s.ops && id in s.records && s.records[id].state != Terminated
    requires s.records[id].pid == Some(m) || (s.records[id].pid == None && backfill == Some(m))
    requires m in s.machines ==> s.machines[m].provider == s.records[id].provider
    ensures Exec(s, [DestroyMark(o, id, false, backfill), DestroyCall(o, true, true), DestroySettle(o)])
         == s.(records := s.records[id := Record(s.records[id].provider, Some(m), Terminated)], machines := s.machines - {m})
  {
    var p := s.records[id].provider;
    var s1 := s.(records := s.records[id := Record(p, Some(m), Terminating)], ops := s.ops[o := Marked(id, p, Some(m), false)]);
    DestroyMarksPid(s, o, id, false, backfill);
    CallKills(s1, o, id, p, m);
    assert s1.ops[o := Settling(id, true)] == s.ops[o := Settling(id, true)];
    SettleEnds(s, o, id, Record(p, Some(m), Terminating), s.machines - {m});
    ThreeInARow(s, DestroyMark(o, id, false, backfill), DestroyCall(o, true, true), DestroySettle(o));
  }

  lemma CallKills(s: State, o: nat, id: Id, p: Provider, m: Machine)
    requires o in s.ops && s.ops[o] == Marked(id, p, Some(m), false)
    requires m in s.machines ==> s.machines[m].provider == p
    ensures Step(s, DestroyCall(o, true, true)) == s.(machines := s.machines - {m}, ops := s.ops[o := Settling(id, true)])
  {
    assert m !in s.machines ==> s.machines - {m} == s.machines;
  }

  lemma CallSkips(s: State, o: nat, id: Id, ok: bool, killed: bool)
    requires o in s.ops && s.ops[o].Marked? && s.ops[o].id == id && (s.ops[o].force || s.ops[o].pid == None)
    ensures Step(s, DestroyCall(o, ok, killed)) == s.(ops := s.ops[o := Settling(id, true)])
  {
  }

  /** The last step of a Destroy that began in s. */
  lemma SettleEnds(s: State, o: nat, id: Id, r: Record, machines: map<Machine, Tag>)
    requires o !in s.ops
    ensures Step(State(s.records[id := r], machines, s.next, s.ops[o := Settling(id, true)]), DestroySettle(o))
         == State(s.records[id := r.(state := Terminated)], machines, s.next, s.ops)
  {
    assert s.ops[o := Settling(id, true)] - {o} == s.ops;
    assert s.records[id := r][id := r.(state := Terminated)] == s.records[id := r.(state := Terminated)];
  }

  /** A forced Destroy, or one that knows no machine, asks the provider nothing: the
      record says TERMINATED, and every machine goes on running. */
  lemma DestroyWithoutCall(s: State, o: nat, id: Id, force: bool, ok: bool, killed: bool)
    requires o !in s.ops && id in s.records && s.records[id].state != Terminated
    requires force || s.records[id].pid == None
    ensures Exec(s, [DestroyMark(o, id, force, None), DestroyCall(o, ok, killed), DestroySettle(o)])
         == s.(records := s.records[id := s.records[id].(state := Terminated)])
  {
    var r := s.records[id];
    var s1 := s.(records := s.records[id := r.(state := Terminating)], ops := s.ops[o := Marked(id, r.provider, r.pid, force)]);
    DestroyMarksPid(s, o, id, force, None);
    CallSkips(s1, o, id, ok, killed);
    assert s1.ops[o := Settling(id, true)] == s.ops[o := Settling(id, true)];
    SettleEnds(s, o, id, r.(state := Terminating), s.machines);
    ThreeInARow(s, DestroyMark(o, id, force, None), DestroyCall(o, ok, killed), DestroySettle(o));
  }

  /** So the state a crash leaves behind is cleaned up when the deployment knows its
      container: no bill, and the record names the machine. */
  lemma BackfillSavesTheBill(s: State, o: nat, id: Id, p: Provider, m: Machine)
    requires o !in s.ops && id in s.records && s.records[id] == Record(p, None, Pending)
    requires Live(s, p, id, m) && OneMachine(s)
    ensures var e := Exec(s, [DestroyMark(o, id, false, Some(m)), DestroyCall(o, true, true), DestroySettle(o)]);
            e.records == s.records[id := Record(p, Some(m), Terminated)] && !Billed(e, id)
  {
    DestroyTerminates(s, o, id, Some(m), m);
    var e := Exec(s, [DestroyMark(o, id, false, Some(m)), DestroyCall(o, true, true), DestroySettle(o)]);
    assert forall n :: Live(e, p, id, n) ==> Live(s, p, id, n) && n != m;
  }

  // ----- What the other operations write ----------------------------------

  /** A rent that fails leaves FAILED and no machine id; a key that cannot be
      registered leaves the claim as it is. */
  lemma CreateFailures(s: State, o: nat, leaked: bool)
    requires o in s.ops && s.ops[o].Choosing? && s.ops[o].refs == []
    ensures var id, p := s.ops[o].id, s.ops[o].p;
            && Step(s, CreateKeyFails(o)) == s.(ops := s.ops - {o})
            && Step(Step(s, CreateSpawnFails(o, leaked)), CreatePatch(o)).records == s.records[id := Record(p, None, Failed)]
            && (!leaked ==> Step(s, CreateSpawnFails(o, leaked)).machines == s.machines)
  {
    var s1 := Step(s, CreateSpawnFails(o, leaked));
    assert s1.ops[o] == SpawnFailed(s.ops[o].id, s.ops[o].p) && s1.records == s.records;
  }

  /** A remote Describe remembers the record it read ... */
  lemma DescribeReads(s: State, o: nat, id: Id)
    requires o !in s.ops && id in s.records && s.records[id].pid.Some?
    ensures Step(s, DescribeBegin(o, id)) == s.(ops := s.ops[o := DescRead(id, s.records[id])])
  {
  }

  /** ... and writes down what it is then told of the machine recorded there. */
  lemma DescribeWrites(s: State, o: nat, id: Id, r: Record, st: InstanceState)
    requires o in s.ops && s.ops[o] == DescRead(id, r) && r.pid.Some?
    ensures Step(Step(s, DescribeFresh(o, st)), DescribePatch(o)).records == s.records[id := Record(r.provider, r.pid, st)]
    ensures Step(Step(s, DescribeGone(o)), DescribePatch(o)).records == s.records[id := Record(r.provider, r.pid, Terminated)]
  {
    var told, gone := s.(ops := s.ops[o := Refreshed(id, r.provider, r.pid.value, st)]), s.(ops := s.ops[o := DescGone(id, r)]);
    assert Step(s, DescribeFresh(o, st)) == told;
    assert Step(s, DescribeGone(o)) == gone;
    PatchRefreshed(told, o);
    PatchGone(gone, o);
  }

  lemma PatchRefreshed(s: State, o: nat)
    requires o in s.ops && s.ops[o].Refreshed?
    ensures var op := s.ops[o];
            Step(s, DescribePatch(o)).records == s.records[op.id := Record(op.p, Some(op.m), op.st)]
  {
  }

  lemma PatchGone(s: State, o: nat)
    requires o in s.ops && s.ops[o].DescGone?
    ensures var op := s.ops[o];
            Step(s, DescribePatch(o)).records == s.records[op.id := op.rec.(state := Terminated)]
  {
  }

  /** Who may begin: the self-heal looks at PENDING and TERMINATING records; a Describe at
      records that name a machine; a Destroy at any that is not TERMINATED; a placement
      goes ahead when it reads no record, or cannot read. */
  lemma BeginTable(s: State, o: nat, id: Id, p: Provider, force: bool, backfill: Option<Machine>, readOk: bool)
    requires o !in s.ops
    ensures Enabled(s, CreateClaim(o, id, p)) <==> id !in s.records || s.records[id].state in {Terminated, Failed}
    ensures Enabled(s, HealBegin(o, id)) <==> id in s.records && s.records[id].state in {Pending, Terminating}
    ensures Enabled(s, DescribeBegin(o, id)) <==> id in s.records && s.records[id].pid.Some?
    ensures Enabled(s, DestroyMark(o, id, force, backfill)) <==> id in s.records && s.records[id].state != Terminated
    ensures Enabled(s, PlaceRead(o, id, p, readOk)) <==> !readOk || id !in s.records
    ensures Enabled(s, HealBegin(o, id)) ==> Step(s, HealBegin(o, id)) == s.(ops := s.ops[o := HealRead(id, s.records[id])])
  {
  }

  /** The self-heal writes TERMINATED for a TERMINATING record with nothing listed, and
      nothing for a PENDING one. */
  lemma HealTable(s: State, o: nat, id: Id, rec: Record)
    requires o in s.ops && s.ops[o] == HealListed(id, rec, []) && id in s.records
    ensures rec.state == Terminating ==>
              Step(s, HealTerminate(o)).records == s.records[id := s.records[id].(state := Terminated)]
    ensures rec.state != Terminating ==> Step(s, HealTerminate(o)) == s
    ensures forall st :: Step(s, HealDescribe(o, st)) == s
    ensures Step(s, GiveUp(o)) == s.(ops := s.ops - {o})
  {
  }

  lemma CrashedThenDestroyed(s: State, id: Id, p: Provider)
    requires s == State(Pending0(id, p), map[], 0, map[0 := Choosing(id, p, [])])
    ensures Billed(Exec(s, [CreateSpawn(0, Active), Crash(0)]
                           + [DestroyMark(0, id, false, None), DestroyCall(0, true, false), DestroySettle(0)]), id)
  {
    var crash, destroy := [CreateSpawn(0, Active), Crash(0)], [DestroyMark(0, id, false, None), DestroyCall(0, true, false), DestroySettle(0)];
    var s1 := Step(s, CreateSpawn(0, Active));
    assert s1 == State(Pending0(id, p), map[0 := Tag(p, id)], 1, map[0 := Rented(id, p, 0, Active)]);
    var s2 := Step(s1, Crash(0));
    assert s2 == State(Pending0(id, p), map[0 := Tag(p, id)], 1, map[]);
    PairInARow(s, CreateSpawn(0, Active), Crash(0));
    RunSplit(s, crash, destroy);
    DestroyWithoutId(s2, id, p);
  }

  lemma DestroyWithoutId(s: State, id: Id, p: Provider)
    requires s == State(Pending0(id, p), map[0 := Tag(p, id)], 1, map[])
    ensures Billed(Exec(s, [DestroyMark(0, id, false, None), DestroyCall(0, true, false), DestroySettle(0)]), id)
  {
    var s1 := s.(records := map[id := Record(p, None, Terminating)], ops := map[0 := Marked(id, p, None, false)]);
    assert Step(s, DestroyMark(0, id, false, None)) == s1;
    var s2 := s1.(ops := map[0 := Settling(id, true)]);
    assert Step(s1, DestroyCall(0, true, false)) == s2;
    var s3 := State(map[id := Record(p, None, Terminated)], s.machines, 1, map[]);
    assert Step(s2, DestroySettle(0)) == s3;
    assert Live(s3, p, id, 0);
    ThreeInARow(s, DestroyMark(0, id, false, None), DestroyCall(0, true, false), DestroySettle(0));
  }
}
