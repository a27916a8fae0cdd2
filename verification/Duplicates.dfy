/** The conditions under which there is one machine per id are tight: how each way of
    breaking them leads to two, with a provider that always tells the truth. */
module Duplicates {
  import opened Common
  import opened Lifecycle

  // ----- The overlap rule is tight ----------------------------------------

  /** Two live machines carry the same id on the same provider. */
  ghost predicate Duplicated(s: State, p: Provider, id: Id) {
    exists m, n :: m != n && Live(s, p, id, m) && Live(s, p, id, n)
  }

  /** Every answer of the provider is true: the tag listings that Create and List ask
      for, and a Describe that says a machine is gone. */
  ghost predicate Truthful(s: State, a: Action) {
    Accurate(s, a) && (Enabled(s, a) ==>
    match a
    case HealList(o, refs) => Complete(s, s.ops[o].rec.provider, s.ops[o].id, refs)
    case DescribeGone(o) =>
      s.ops[o].rec.pid.Some? ==> !Live(s, s.ops[o].rec.provider, s.ops[o].id, s.ops[o].rec.pid.value)
    case _ => true)
  }

  ghost predicate TruthfulRun(s: State, run: seq<Action>)
    decreases |run|
  {
    run == [] || (Truthful(s, run[0]) && TruthfulRun(Step(s, run[0]), run[1..]))
  }

  lemma {:induction false} RunConcat(s: State, first: seq<Action>, second: seq<Action>)
    ensures Exec(s, first + second) == Exec(Exec(s, first), second)
    ensures TruthfulRun(s, first) && TruthfulRun(Exec(s, first), second) ==> TruthfulRun(s, first + second)
    decreases |first|
  {
    if first == [] {
      assert first + second == second;
    } else {
      assert (first + second)[1..] == first[1..] + second;
      RunConcat(Step(s, first[0]), first[1..], second);
    }
  }

  predicate OnlyCreates(run: seq<Action>) {
    forall i :: 0 <= i < |run| ==>
      run[i].CreateClaim? || run[i].CreateList? || run[i].CreateSkip? || run[i].CreateSpawn?
  }

  /** A Create whose remaining list names no live machine gets to the point of
      renting one. */
  lemma {:induction false} SkipsToSpawn(s: State, o: nat) returns (run: seq<Action>)
    requires o in s.ops && s.ops[o].Choosing?
    requires forall m :: Live(s, s.ops[o].p, s.ops[o].id, m) ==> m !in s.ops[o].refs
    ensures forall i :: 0 <= i < |run| ==> run[i] == CreateSkip(o)
    ensures (forall m :: !Live(s, s.ops[o].p, s.ops[o].id, m)) ==> TruthfulRun(s, run)
    ensures Exec(s, run) == Goto(s, o, Choosing(s.ops[o].id, s.ops[o].p, []))
    decreases |s.ops[o].refs|
  {
    var p, id := s.ops[o].p, s.ops[o].id;
    if s.ops[o].refs == [] {
      run := [];
      assert s == Goto(s, o, s.ops[o]);
    } else {
      var s' := Goto(s, o, Choosing(id, p, s.ops[o].refs[1..]));
      assert Step(s, CreateSkip(o)) == s';
      assert forall m :: Live(s', p, id, m) == Live(s, p, id, m);
      var rest := SkipsToSpawn(s', o);
      run := [CreateSkip(o)] + rest;
      assert Goto(s', o, Choosing(id, p, [])) == Goto(s, o, Choosing(id, p, []));
    }
  }

  /** With no live machine to find, a Create on its way gets there whatever it has
      listed. */
  lemma ReachesSpawn(s: State, o: nat) returns (run: seq<Action>)
    requires o in s.ops && PreSpawn(s.ops[o], s.ops[o].id)
    requires forall m :: !Live(s, s.ops[o].p, s.ops[o].id, m)
    ensures TruthfulRun(s, run) && OnlyCreates(run)
    ensures Exec(s, run) == Goto(s, o, Choosing(s.ops[o].id, s.ops[o].p, []))
  {
    if s.ops[o].Choosing? {
      run := SkipsToSpawn(s, o);
    } else {
      var a := CreateList(o, []);
      var s' := Goto(s, o, Choosing(s.ops[o].id, s.ops[o].p, []));
      assert Step(s, a) == s';
      PrependRun(s, a, []);
      run := [a] + [];
    }
  }

  /** A second Create of a freed id gets its own machine, and so does the first. */
  lemma SecondCreate(s: State, o: nat, q: nat) returns (run: seq<Action>)
    requires o in s.ops && s.ops[o].Choosing? && s.ops[o].refs == [] && q !in s.ops
    requires Claimable(s.records, s.ops[o].id) && s.next !in s.machines
    requires forall m :: !Live(s, s.ops[o].p, s.ops[o].id, m)
    ensures TruthfulRun(s, run) && OnlyCreates(run) && Duplicated(Exec(s, run), s.ops[o].p, s.ops[o].id)
  {
    var p, id := s.ops[o].p, s.ops[o].id;
    var claim, list, rent, again := CreateClaim(q, id, p), CreateList(q, []), CreateSpawn(q, Active), CreateSpawn(o, Active);
    run := [claim] + ([list] + ([rent] + ([again] + [])));
    var s1 := Step(s, claim);
    assert forall m :: Live(s1, p, id, m) == Live(s, p, id, m);
    var s2 := Step(s1, list);
    var s3 := Step(s2, rent);
    var s4 := Step(s3, again);
    assert Exec(s3, [again] + []) == s4 && TruthfulRun(s3, [again] + []);
    assert Exec(s2, [rent] + ([again] + [])) == s4 && TruthfulRun(s2, [rent] + ([again] + []));
    assert Exec(s1, [list] + ([rent] + ([again] + []))) == s4 && TruthfulRun(s1, [list] + ([rent] + ([again] + [])));
    assert Live(s4, p, id, s.next) && Live(s4, p, id, s.next + 1);
  }

  lemma DuplicatesFrom(s: State, o: nat, q: nat) returns (run: seq<Action>)
    requires o in s.ops && PreSpawn(s.ops[o], s.ops[o].id) && q !in s.ops
    requires Claimable(s.records, s.ops[o].id) && s.next !in s.machines
    requires forall m :: !Live(s, s.ops[o].p, s.ops[o].id, m)
    ensures TruthfulRun(s, run) && OnlyCreates(run) && Duplicated(Exec(s, run), s.ops[o].p, s.ops[o].id)
  {
    var first := ReachesSpawn(s, o);
    var s2 := Exec(s, first);
    assert forall m :: Live(s2, s.ops[o].p, s.ops[o].id, m) == Live(s, s.ops[o].p, s.ops[o].id, m);
    var second := SecondCreate(s2, o, q);
    RunConcat(s, first, second);
    run := first + second;
  }

  /** A step that frees an id rents nothing and touches no Create on its way. */
  lemma FreeingLeavesRest(s: State, a: Action, id: Id)
    requires Frees(s, a, id)
    ensures var s1 := Step(s, a);
            && s1.machines == s.machines && s1.next == s.next
            && (forall q :: q !in s.ops ==> q !in s1.ops)
            && forall o :: o in s.ops && (s.ops[o].Claimed? || s.ops[o].Choosing?) ==> o in s1.ops && s1.ops[o] == s.ops[o]
  {
  }

  /** Creates, and machines that die. */
  predicate CreatesAndLosses(run: seq<Action>) {
    forall i :: 0 <= i < |run| ==>
      run[i].CreateClaim? || run[i].CreateList? || run[i].CreateSkip? || run[i].CreateSpawn? || run[i].Vanish?
  }

  /** If a machine is alive, let it die first; there is no second one. */
  lemma DuplicatesAfterLoss(s: State, o: nat, q: nat) returns (run: seq<Action>)
    requires OneMachine(s) && o in s.ops && PreSpawn(s.ops[o], s.ops[o].id) && q !in s.ops
    requires Claimable(s.records, s.ops[o].id) && s.next !in s.machines
    ensures TruthfulRun(s, run) && CreatesAndLosses(run) && Duplicated(Exec(s, run), s.ops[o].p, s.ops[o].id)
    ensures (forall m :: !Live(s, s.ops[o].p, s.ops[o].id, m)) ==> OnlyCreates(run)
  {
    var p, id := s.ops[o].p, s.ops[o].id;
    if m :| Live(s, p, id, m) {
      var s1 := Step(s, Vanish(m));
      forall n
        ensures !Live(s1, p, id, n)
      {
        assert Live(s, p, id, n) ==> n == m;
      }
      var rest := DuplicatesFrom(s1, o, q);
      PrependRun(s, Vanish(m), rest);
      run := [Vanish(m)] + rest;
    } else {
      run := DuplicatesFrom(s, o, q);
    }
  }

  /** The rule is tight in every state: a write that frees an id under a Create can
      always be continued, by another Create of that id and a truthful provider, to
      two machines. */
  lemma FreeingUnderCreateDuplicates(s: State, a: Action, o: nat, q: nat) returns (run: seq<Action>)
    requires Inv(s) && o in s.ops && PreSpawn(s.ops[o], s.ops[o].id) && q !in s.ops
    requires Frees(s, a, s.ops[o].id)
    ensures TruthfulRun(Step(s, a), run) && CreatesAndLosses(run)
    ensures Duplicated(Exec(Step(s, a), run), s.ops[o].p, s.ops[o].id)
    ensures (forall m :: !Live(s, s.ops[o].p, s.ops[o].id, m)) ==> OnlyCreates(run)
  {
    FreeingLeavesRest(s, a, s.ops[o].id);
    var s1 := Step(s, a);
    assert forall m :: Live(s1, s.ops[o].p, s.ops[o].id, m) == Live(s, s.ops[o].p, s.ops[o].id, m);
    run := DuplicatesAfterLoss(s1, o, q);
  }

  lemma SpawnIs(s: State, o: nat)
    requires o in s.ops && s.ops[o].Choosing? && s.ops[o].refs == []
    ensures var id, p := s.ops[o].id, s.ops[o].p;
            Step(s, CreateSpawn(o, Active)) == Goto(Rent(s, p, id), o, Rented(id, p, s.next, Active))
  {
  }

  /** So is the rule for placements. One that claims its record beside a live machine
      rents a second. */
  lemma PlacementBesideLiveDuplicates(s: State, o: nat, m: Machine)
    requires Inv(s) && Enabled(s, PlaceClaim(o)) && Live(s, s.ops[o].p, s.ops[o].id, m)
    ensures Duplicated(Step(Step(s, PlaceClaim(o)), CreateSpawn(o, Active)), s.ops[o].p, s.ops[o].id)
  {
    var s1 := Step(s, PlaceClaim(o));
    PlaceClaimIs(s, o);
    SpawnIs(s1, o);
    var s2 := Step(s1, CreateSpawn(o, Active));
    assert Live(s2, s.ops[o].p, s.ops[o].id, m) && Live(s2, s.ops[o].p, s.ops[o].id, s.next) && m != s.next;
  }

  /** Two that are about to rent the same machine both do. */
  lemma BothRent(s: State, o: nat, q: nat)
    requires o in s.ops && q in s.ops && o != q && s.ops[o].PlaceReady?
    requires s.ops[q] == Choosing(s.ops[o].id, s.ops[o].p, [])
    ensures var rent := [PlaceClaim(o), CreateSpawn(o, Active), CreateSpawn(q, Active)];
            TruthfulRun(s, rent) && Duplicated(Exec(s, rent), s.ops[o].p, s.ops[o].id)
  {
    var p, id := s.ops[o].p, s.ops[o].id;
    var s1 := Goto(Write(s, id, Record(p, None, Pending)), o, Choosing(id, p, []));
    PlaceClaimIs(s, o);
    var s2 := Goto(Rent(s1, p, id), o, Rented(id, p, s1.next, Active));
    SpawnIs(s1, o);
    var s3 := Goto(Rent(s2, p, id), q, Rented(id, p, s2.next, Active));
    SpawnIs(s2, q);
    ThreeSteps(s, PlaceClaim(o), CreateSpawn(o, Active), CreateSpawn(q, Active), s1, s2);
    assert Live(s3, p, id, s.next) && Live(s3, p, id, s.next + 1);
  }

  /** One that claims it beside a Create or placement about to rent ends with two. */
  lemma PlacementBesideRivalDuplicates(s: State, o: nat, q: nat) returns (run: seq<Action>)
    requires Inv(s) && Enabled(s, PlaceClaim(o)) && q in s.ops && q != o
    requires PreSpawn(s.ops[q], s.ops[o].id) && s.ops[q].p == s.ops[o].p
    requires forall m :: !Live(s, s.ops[o].p, s.ops[o].id, m)
    ensures TruthfulRun(s, run) && Duplicated(Exec(s, run), s.ops[o].p, s.ops[o].id)
  {
    var first := ReachesSpawn(s, q);
    BothRent(Exec(s, first), o, q);
    RunConcat(s, first, [PlaceClaim(o), CreateSpawn(o, Active), CreateSpawn(q, Active)]);
    run := first + [PlaceClaim(o), CreateSpawn(o, Active), CreateSpawn(q, Active)];
  }

  /** An operation about to record that a machine is gone: a List that read the
      record as TERMINATING and was then listed nothing, or a remote Describe
      that was told the machine does not exist. */
  predicate AboutToBury(op: Op) {
    || (op.HealListed? && op.refs == [] && op.rec.state == Terminating)
    || op.DescGone?
  }

  function Burial(op: Op, h: nat): Action {
    if op.DescGone? then DescribePatch(h) else HealTerminate(h)
  }

  lemma BurialFrees(s: State, h: nat, o: nat)
    requires Inv(s) && h in s.ops && AboutToBury(s.ops[h]) && o !in s.ops
    requires s.ops[h].id in s.records && s.records[s.ops[h].id].state == Terminated
    ensures var p, id := s.ops[h].rec.provider, s.ops[h].id;
            var s1 := Step(s, CreateClaim(o, id, p));
            && Inv(s1) && s1.machines == s.machines
            && s1.ops == s.ops[o := Claimed(id, p)]
            && Frees(s1, Burial(s.ops[h], h), id)
  {
    ClaimKeepsInv(s, o, s.ops[h].id, s.ops[h].rec.provider);
  }

  /** Keeping Destroy away from a running Create is not enough. An operation
      that read the old record marks it TERMINATED whenever its write lands,
      also after a new Create has claimed the id, and that ends with two
      machines although no Destroy runs at all. */
  lemma StaleBurialDuplicates(s: State, h: nat, o: nat, q: nat) returns (rest: seq<Action>)
    requires Inv(s) && h in s.ops && AboutToBury(s.ops[h])
    requires o !in s.ops && q !in s.ops && o != q
    requires s.ops[h].id in s.records && s.records[s.ops[h].id].state == Terminated
    ensures CreatesAndLosses(rest)
    ensures var p, id := s.ops[h].rec.provider, s.ops[h].id;
            var run := [CreateClaim(o, id, p)] + ([Burial(s.ops[h], h)] + rest);
            TruthfulRun(s, run) && Duplicated(Exec(s, run), p, id)
  {
    var p, id := s.ops[h].rec.provider, s.ops[h].id;
    var claim, bury := CreateClaim(o, id, p), Burial(s.ops[h], h);
    BurialFrees(s, h, o);
    var s1 := Step(s, claim);
    assert forall m :: Live(s1, p, id, m) == Live(s, p, id, m);
    rest := FreeingUnderCreateDuplicates(s1, bury, o, q);
    PrependRun(s1, bury, rest);
    PrependRun(s, claim, [bury] + rest);
  }

  lemma PrependRun(s: State, a: Action, run: seq<Action>)
    requires Truthful(s, a) && TruthfulRun(Step(s, a), run)
    ensures TruthfulRun(s, [a] + run) && Exec(s, [a] + run) == Exec(Step(s, a), run)
  {
    assert ([a] + run)[1..] == run;
  }

  predicate NoDestroy(run: seq<Action>) {
    forall i :: 0 <= i < |run| ==> !run[i].DestroyMark?
  }

  /** Short runs, one state at a time. */
  lemma ThreeSteps(s: State, a: Action, b: Action, c: Action, s1: State, s2: State)
    requires s1 == Step(s, a) && s2 == Step(s1, b)
    requires Truthful(s, a) && Truthful(s1, b) && Truthful(s2, c)
    ensures TruthfulRun(s, [a, b, c]) && Exec(s, [a, b, c]) == Step(s2, c)
  {
    PrependRun(s2, c, []);
    PrependRun(s1, b, [c]);
    PrependRun(s, a, [b, c]);
    assert [c] + [] == [c] && [b] + [c] == [b, c] && [a] + [b, c] == [a, b, c];
  }

  lemma FiveSteps(s: State, a: Action, b: Action, c: Action, d: Action, e: Action, s1: State, s2: State, s3: State, s4: State)
    requires s1 == Step(s, a) && s2 == Step(s1, b) && s3 == Step(s2, c) && s4 == Step(s3, d)
    requires Truthful(s, a) && Truthful(s1, b) && Truthful(s2, c) && Truthful(s3, d) && Truthful(s4, e)
    ensures TruthfulRun(s, [a, b, c, d, e]) && Exec(s, [a, b, c, d, e]) == Step(s4, e)
  {
    ThreeSteps(s2, c, d, e, s3, s4);
    PrependRun(s1, b, [c, d, e]);
    PrependRun(s, a, [b, c, d, e]);
    assert [b] + [c, d, e] == [b, c, d, e] && [a] + [b, c, d, e] == [a, b, c, d, e];
  }

  lemma CreateSteps(s: State, id: Id, p: Provider)
    requires Init(s)
    ensures var pending := map[id := Record(p, None, Pending)];
            && Step(s, CreateClaim(0, id, p)) == State(pending, map[], 0, map[0 := Claimed(id, p)])
            && Step(State(pending, map[], 0, map[0 := Claimed(id, p)]), CreateList(0, []))
               == State(pending, map[], 0, map[0 := Choosing(id, p, [])])
            && Step(State(pending, map[], 0, map[0 := Choosing(id, p, [])]), CreateSpawn(0, Active))
               == State(pending, map[0 := Tag(p, id)], 1, map[0 := Rented(id, p, 0, Active)])
  {
  }

  lemma RecordSteps(id: Id, p: Provider)
    ensures var pending, active := map[id := Record(p, None, Pending)], map[id := Record(p, Some(0), Active)];
            && Step(State(pending, map[0 := Tag(p, id)], 1, map[0 := Rented(id, p, 0, Active)]), CreatePatch(0))
               == State(active, map[0 := Tag(p, id)], 1, map[])
            && Step(State(active, map[0 := Tag(p, id)], 1, map[]), Vanish(0)) == State(active, map[], 1, map[])
  {
  }

  /** A machine is created, recorded and then dies. */
  lemma CreatedAndGone(s: State, id: Id, p: Provider) returns (run: seq<Action>)
    requires Init(s)
    ensures TruthfulRun(s, run) && NoDestroy(run)
    ensures Exec(s, run) == State(map[id := Record(p, Some(0), Active)], map[], 1, map[])
  {
    var pending, active := map[id := Record(p, None, Pending)], map[id := Record(p, Some(0), Active)];
    CreateSteps(s, id, p);
    RecordSteps(id, p);
    run := [CreateClaim(0, id, p), CreateList(0, []), CreateSpawn(0, Active), CreatePatch(0), Vanish(0)];
    FiveSteps(s, run[0], run[1], run[2], run[3], run[4],
              State(pending, map[], 0, map[0 := Claimed(id, p)]), State(pending, map[], 0, map[0 := Choosing(id, p, [])]),
              State(pending, map[0 := Tag(p, id)], 1, map[0 := Rented(id, p, 0, Active)]),
              State(active, map[0 := Tag(p, id)], 1, map[]));
  }

  lemma ReadSteps(s: State, id: Id, r: Record)
    requires s.records == map[id := r] && s.ops == map[] && r.pid.Some?
    ensures var s1 := s.(ops := map[1 := DescRead(id, r)]);
            && Step(s, DescribeBegin(1, id)) == s1
            && Step(s1, DescribeBegin(2, id)) == s.(ops := map[1 := DescRead(id, r), 2 := DescRead(id, r)])
  {
  }

  lemma GoneSteps(s: State, id: Id, r: Record)
    requires s.ops == map[1 := DescRead(id, r), 2 := DescRead(id, r)]
    ensures var s3 := s.(ops := map[1 := DescGone(id, r), 2 := DescRead(id, r)]);
            && Step(s, DescribeGone(1)) == s3
            && Step(s3, DescribeGone(2)) == s.(ops := map[1 := DescGone(id, r), 2 := DescGone(id, r)])
  {
  }

  lemma BuryStep(s: State, id: Id, r: Record)
    requires s.records == map[id := r] && s.ops == map[1 := DescGone(id, r), 2 := DescGone(id, r)]
    ensures Step(s, DescribePatch(1)) == State(map[id := r.(state := Terminated)], s.machines, s.next, map[2 := DescGone(id, r)])
  {
  }

  /** Two Describes are told so, and one of them has written it down. */
  lemma TwoDescribes(s: State, id: Id, r: Record) returns (run: seq<Action>)
    requires s.records == map[id := r] && s.ops == map[] && r.pid.Some? && s.machines == map[]
    ensures TruthfulRun(s, run) && NoDestroy(run)
    ensures Exec(s, run) == State(map[id := r.(state := Terminated)], s.machines, s.next, map[2 := DescGone(id, r)])
  {
    ReadSteps(s, id, r);
    GoneSteps(s.(ops := map[1 := DescRead(id, r), 2 := DescRead(id, r)]), id, r);
    BuryStep(s.(ops := map[1 := DescGone(id, r), 2 := DescGone(id, r)]), id, r);
    run := [DescribeBegin(1, id), DescribeBegin(2, id), DescribeGone(1), DescribeGone(2), DescribePatch(1)];
    FiveSteps(s, run[0], run[1], run[2], run[3], run[4],
              s.(ops := map[1 := DescRead(id, r)]), s.(ops := map[1 := DescRead(id, r), 2 := DescRead(id, r)]),
              s.(ops := map[1 := DescGone(id, r), 2 := DescRead(id, r)]),
              s.(ops := map[1 := DescGone(id, r), 2 := DescGone(id, r)]));
  }

  /** So from the empty state, with no Destroy anywhere in the run and a provider
      whose every answer is true, an id can end up with two machines. */
  lemma DuplicatesWithoutDestroy(s: State, id: Id, p: Provider) returns (run: seq<Action>)
    requires Init(s)
    ensures TruthfulRun(s, run) && NoDestroy(run) && Duplicated(Exec(s, run), p, id)
  {
    var first := CreatedAndGone(s, id, p);
    var r := Record(p, Some(0), Active);
    var second := TwoDescribes(State(map[id := r], map[], 1, map[]), id, r);
    var third := StaleDescribe(id, p);
    RunConcat(Exec(s, first), second, third);
    RunConcat(s, first, second + third);
    run := first + (second + third);
  }

  /** The other Describe's write lands under a new Create. */
  lemma StaleDescribe(id: Id, p: Provider) returns (run: seq<Action>)
    ensures var s := State(map[id := Record(p, Some(0), Terminated)], map[], 1, map[2 := DescGone(id, Record(p, Some(0), Active))]);
            TruthfulRun(s, run) && NoDestroy(run) && Duplicated(Exec(s, run), p, id)
  {
    var s := State(map[id := Record(p, Some(0), Terminated)], map[], 1, map[2 := DescGone(id, Record(p, Some(0), Active))]);
    var rest := StaleBurialDuplicates(s, 2, 3, 4);
    run := [CreateClaim(3, id, p)] + ([DescribePatch(2)] + rest);
  }

  /** The state file is lost after a machine was recorded, and a fan-out places the
      same id: it reads no record, looks for no machine, and rents a second. */
  lemma PlacementAfterLossDuplicates(s: State, id: Id, p: Provider)
    requires Init(s)
    ensures var create := [CreateClaim(0, id, p), CreateList(0, []), CreateSpawn(0, Active), CreatePatch(0), Wipe(id)];
            var place := [PlaceRead(0, id, p, true), PlaceClaim(0), CreateSpawn(0, Active)];
            TruthfulRun(s, create + place) && Duplicated(Exec(s, create + place), p, id)
  {
    var pending, active := map[id := Record(p, None, Pending)], map[id := Record(p, Some(0), Active)];
    var create := [CreateClaim(0, id, p), CreateList(0, []), CreateSpawn(0, Active), CreatePatch(0), Wipe(id)];
    var place := [PlaceRead(0, id, p, true), PlaceClaim(0), CreateSpawn(0, Active)];
    CreateSteps(s, id, p);
    RecordSteps(id, p);
    var s4 := State(active, map[0 := Tag(p, id)], 1, map[]);
    FiveSteps(s, create[0], create[1], create[2], create[3], create[4],
              State(pending, map[], 0, map[0 := Claimed(id, p)]), State(pending, map[], 0, map[0 := Choosing(id, p, [])]),
              State(pending, map[0 := Tag(p, id)], 1, map[0 := Rented(id, p, 0, Active)]), s4);
    PlaceSteps(s4, id, p);
    RunConcat(s, create, place);
  }

  lemma PlaceReadIs(s: State, o: nat, id: Id, p: Provider)
    requires o !in s.ops && id !in s.records
    ensures Step(s, PlaceRead(o, id, p, true)) == Goto(s, o, PlaceReady(id, p))
  {
  }

  lemma WipeIs(s: State, id: Id)
    ensures Step(s, Wipe(id)) == s.(records := s.records - {id})
  {
  }

  lemma PlaceSteps(s: State, id: Id, p: Provider)
    requires s.machines == map[0 := Tag(p, id)] && s.next == 1 && s.ops == map[]
    ensures var place := [PlaceRead(0, id, p, true), PlaceClaim(0), CreateSpawn(0, Active)];
            var lost := Step(s, Wipe(id));
            TruthfulRun(lost, place) && Duplicated(Exec(lost, place), p, id)
  {
    var lost := Step(s, Wipe(id));
    WipeIs(s, id);
    var s1 := Goto(lost, 0, PlaceReady(id, p));
    PlaceReadIs(lost, 0, id, p);
    var s2 := Goto(Write(s1, id, Record(p, None, Pending)), 0, Choosing(id, p, []));
    PlaceClaimIs(s1, 0);
    var s3 := Goto(Rent(s2, p, id), 0, Rented(id, p, 1, Active));
    SpawnIs(s2, 0);
    ThreeSteps(lost, PlaceRead(0, id, p, true), PlaceClaim(0), CreateSpawn(0, Active), s1, s2);
    assert Live(s3, p, id, 0) && Live(s3, p, id, 1);
  }

  // ----- Searching is tight -----------------------------------------------

  /** Whenever a live machine escapes Create's search, because a listing failed or
      left it out or because it is passed over as inactive, Create goes on to rent
      a second one. */
  lemma OverlookingDuplicates(s: State, a: Action) returns (run: seq<Action>)
    requires Inv(s) && Enabled(s, a) && (a.CreateList? || a.CreateListFails? || a.CreateSkip?) && !Accurate(s, a)
    ensures forall i :: 0 <= i < |run| ==> run[i] == CreateSkip(a.o) || run[i] == CreateSpawn(a.o, Active)
    ensures Duplicated(Exec(Step(s, a), run), s.ops[a.o].p, s.ops[a.o].id)
  {
    var o, p, id := a.o, s.ops[a.o].p, s.ops[a.o].id;
    var m :| Live(s, p, id, m) && m !in Remaining(s, a);
    var s1 := Goto(s, o, Choosing(id, p, Remaining(s, a)));
    assert Step(s, a) == s1;
    forall n | Live(s1, p, id, n)
      ensures n == m
    {
      assert Live(s, p, id, n);
    }
    var skips := SkipsToSpawn(s1, o);
    var s2 := Goto(s1, o, Choosing(id, p, []));
    SpawnIs(s2, o);
    OneStep(s2, CreateSpawn(o, Active));
    RunConcat(s1, skips, [CreateSpawn(o, Active)]);
    run := skips + [CreateSpawn(o, Active)];
    SecondLives(s2, o, m);
  }

  lemma OneStep(s: State, a: Action)
    ensures Exec(s, [a]) == Step(s, a)
  {
    assert [a][1..] == [];
  }

  lemma SecondLives(s: State, o: nat, m: Machine)
    requires o in s.ops && s.ops[o].Choosing? && Live(s, s.ops[o].p, s.ops[o].id, m) && s.next !in s.machines
    ensures var p, id := s.ops[o].p, s.ops[o].id;
            Duplicated(Goto(Rent(s, p, id), o, Rented(id, p, s.next, Active)), p, id)
  {
    var p, id := s.ops[o].p, s.ops[o].id;
    var s' := Goto(Rent(s, p, id), o, Rented(id, p, s.next, Active));
    assert Live(s', p, id, m) && Live(s', p, id, s.next) && m != s.next;
  }

  /** A machine is created and recorded, and its terminate fails. */
  function FailedTerminate(id: Id, p: Provider): seq<Action> {
    [CreateClaim(0, id, p), CreateList(0, []), CreateSpawn(0, Active)]
    + [CreatePatch(0), DestroyMark(0, id, false, None)] + [DestroyCall(0, false, false), DestroySettle(0)]
  }

  lemma MarkSteps(id: Id, p: Provider)
    ensures var active, marked := map[id := Record(p, Some(0), Active)], map[id := Record(p, Some(0), Terminating)];
            var machines := map[0 := Tag(p, id)];
            && Step(State(active, machines, 1, map[]), DestroyMark(0, id, false, None))
               == State(marked, machines, 1, map[0 := Marked(id, p, Some(0), false)])
            && Step(State(marked, machines, 1, map[0 := Marked(id, p, Some(0), false)]), DestroyCall(0, false, false))
               == State(marked, machines, 1, map[0 := Settling(id, false)])
  {
  }

  lemma SettleStep(id: Id, p: Provider)
    ensures var machines := map[0 := Tag(p, id)];
            Step(State(map[id := Record(p, Some(0), Terminating)], machines, 1, map[0 := Settling(id, false)]), DestroySettle(0))
            == State(map[id := Record(p, Some(0), Failed)], machines, 1, map[])
  {
  }

  lemma TwoSteps(s: State, a: Action, b: Action)
    requires Truthful(s, a) && Truthful(Step(s, a), b)
    ensures TruthfulRun(s, [a, b]) && Exec(s, [a, b]) == Step(Step(s, a), b)
  {
    PrependRun(Step(s, a), b, []);
    PrependRun(s, a, [b]);
    assert [b] + [] == [b] && [a] + [b] == [a, b];
  }

  lemma AfterFailedTerminate(s: State, id: Id, p: Provider)
    requires Init(s)
    ensures TruthfulRun(s, FailedTerminate(id, p))
    ensures Exec(s, FailedTerminate(id, p)) == State(map[id := Record(p, Some(0), Failed)], map[0 := Tag(p, id)], 1, map[])
  {
    var pending, active := map[id := Record(p, None, Pending)], map[id := Record(p, Some(0), Active)];
    var machines := map[0 := Tag(p, id)];
    CreateSteps(s, id, p);
    var first, second, third := [CreateClaim(0, id, p), CreateList(0, []), CreateSpawn(0, Active)],
                                [CreatePatch(0), DestroyMark(0, id, false, None)], [DestroyCall(0, false, false), DestroySettle(0)];
    ThreeSteps(s, first[0], first[1], first[2],
               State(pending, map[], 0, map[0 := Claimed(id, p)]), State(pending, map[], 0, map[0 := Choosing(id, p, [])]));
    RecordSteps(id, p);
    MarkSteps(id, p);
    SettleStep(id, p);
    TwoSteps(State(pending, machines, 1, map[0 := Rented(id, p, 0, Active)]), second[0], second[1]);
    TwoSteps(State(map[id := Record(p, Some(0), Terminating)], machines, 1, map[0 := Marked(id, p, Some(0), false)]), third[0], third[1]);
    RunConcat(s, first, second);
    RunConcat(s, first + second, third);
  }

  /** From the empty state, after that: the next Create's listing fails and is
      ignored, and a second machine is rented next to the live one. */
  lemma FailedListDuplicates(s: State, id: Id, p: Provider)
    requires Init(s)
    ensures TruthfulRun(s, FailedTerminate(id, p))
    ensures Duplicated(Exec(s, FailedTerminate(id, p) + [CreateClaim(0, id, p), CreateListFails(0), CreateSpawn(0, Active)]), p, id)
  {
    AfterFailedTerminate(s, id, p);
    var e := Exec(s, FailedTerminate(id, p));
    var s1 := Step(e, CreateClaim(0, id, p));
    var s2 := Step(s1, CreateListFails(0));
    assert s2 == Goto(Write(e, id, Record(p, None, Pending)), 0, Choosing(id, p, []));
    var again := [CreateClaim(0, id, p), CreateListFails(0), CreateSpawn(0, Active)];
    assert again[1..] == [CreateListFails(0), CreateSpawn(0, Active)] && again[1..][1..] == [CreateSpawn(0, Active)];
    OneStep(s2, CreateSpawn(0, Active));
    RunConcat(s, FailedTerminate(id, p), again);
    SpawnIs(s2, 0);
    SecondLives(s2, 0, 0);
  }

  /** Or its listing names the machine, which is still stopping and so not called
      active: it is passed over, and a second one is rented. */
  lemma InactiveMachineDuplicates(s: State, id: Id, p: Provider)
    requires Init(s)
    ensures TruthfulRun(s, FailedTerminate(id, p))
    ensures var again := [CreateClaim(0, id, p), CreateList(0, [0])] + [CreateSkip(0), CreateSpawn(0, Active)];
            Duplicated(Exec(s, FailedTerminate(id, p) + again), p, id)
  {
    AfterFailedTerminate(s, id, p);
    var e := Exec(s, FailedTerminate(id, p));
    var s1 := Step(e, CreateClaim(0, id, p));
    var s2 := Step(s1, CreateList(0, [0]));
    assert s2 == Goto(Write(e, id, Record(p, None, Pending)), 0, Choosing(id, p, [0]));
    TwoSteps(e, CreateClaim(0, id, p), CreateList(0, [0]));
    SkipsLive(s2, id, p);
    RunConcat(e, [CreateClaim(0, id, p), CreateList(0, [0])], [CreateSkip(0), CreateSpawn(0, Active)]);
    RunConcat(s, FailedTerminate(id, p), [CreateClaim(0, id, p), CreateList(0, [0])] + [CreateSkip(0), CreateSpawn(0, Active)]);
  }

  lemma SkipsLive(s: State, id: Id, p: Provider)
    requires 0 in s.ops && s.ops[0] == Choosing(id, p, [0]) && Live(s, p, id, 0) && s.next !in s.machines
    ensures Duplicated(Exec(s, [CreateSkip(0), CreateSpawn(0, Active)]), p, id)
  {
    var s1 := Step(s, CreateSkip(0));
    assert s1 == Goto(s, 0, Choosing(id, p, []));
    assert [CreateSkip(0), CreateSpawn(0, Active)][1..] == [CreateSpawn(0, Active)];
    OneStep(s1, CreateSpawn(0, Active));
    SpawnIs(s1, 0);
    SecondLives(s1, 0, 0);
  }
}
