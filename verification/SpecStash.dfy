/** The hand-over of replica specs inside a fan-out (provisionSlots and
    takePendingReplicaSpecs in internal/provisioners/fanout.go): each fan-out puts
    its specs into one field of the service and its recorder takes them out again,
    with other fan-outs free to run in between. */
module SpecStash {
  import opened Common
  import opened Fanout

  // ----- Any number of fan-outs -------------------------------------------

  /** Before the put, between put and take, and after: whose specs were taken. */
  datatype Phase = Placing | Stashed | Recorded(got: Option<nat>)

  /** The stash holds the specs of one fan-out, or none. */
  datatype State = State(stash: Option<nat>, phases: seq<Phase>)

  datatype Action = Put(f: nat) | Take(f: nat)

  predicate Enabled(s: State, a: Action) {
    a.f < |s.phases| && s.phases[a.f] == if a.Put? then Placing else Stashed
  }

  function Step(s: State, a: Action): State {
    if !Enabled(s, a) then s else
    match a
    case Put(f) => State(Some(f), s.phases[f := Stashed])
    case Take(f) => State(None, s.phases[f := Recorded(s.stash)])
  }

  function Exec(s: State, run: seq<Action>): State
    decreases |run|
  {
    if run == [] then s else Step(Exec(s, run[..|run| - 1]), run[|run| - 1])
  }

  function Init(n: nat): State { State(None, seq(n, i => Placing)) }

  /** The k-th action of the run did something. */
  predicate Happens(n: nat, run: seq<Action>, k: nat) {
    k < |run| && Enabled(Exec(Init(n), run[..k]), run[k])
  }

  lemma {:induction false} RunKeepsCount(n: nat, run: seq<Action>)
    ensures |Exec(Init(n), run).phases| == n
    decreases |run|
  {
    if run != [] {
      RunKeepsCount(n, run[..|run| - 1]);
    }
  }

  /** What is in the stash: no specs and an empty list are the same to the
      recorders. */
  function Handed(specs: seq<seq<Spec>>, got: Option<nat>): seq<Spec> {
    if got.Some? && got.value < |specs| then specs[got.value] else []
  }

  /** The field itself, shared by fan-outs that were asked for `asked`. */
  class Stash {
    var pending: seq<Spec>
    ghost const asked: seq<seq<Spec>>
    ghost var state: State

    ghost predicate Valid()
      reads this
    {
      pending == Handed(asked, state.stash)
    }

    constructor (ghost asked: seq<seq<Spec>>)
      ensures Valid() && this.asked == asked && state == Init(|asked|)
    {
      pending := [];
      this.asked, state := asked, Init(|asked|);
    }

    method PutSpecs(specs: seq<Spec>, ghost f: nat)
      requires Valid() && Enabled(state, Put(f)) && f < |asked| && specs == asked[f]
      modifies this
      ensures Valid() && state == Step(old(state), Put(f))
    {
      pending := specs;
      state := Step(state, Put(f));
    }

    method TakeSpecs(ghost f: nat) returns (specs: seq<Spec>)
      requires Valid() && Enabled(state, Take(f))
      modifies this
      ensures Valid() && state == Step(old(state), Take(f))
      ensures state.phases[f].Recorded? && specs == Handed(asked, state.phases[f].got)
    {
      specs := pending;
      pending := [];
      state := Step(state, Take(f));
    }
  }

  // ----- Who gets whose specs ---------------------------------------------

  /** The state before action k + 1 is the state after action k. */
  lemma StateAfter(n: nat, run: seq<Action>, k: nat)
    requires k < |run|
    ensures Exec(Init(n), run[..k + 1]) == Step(Exec(Init(n), run[..k]), run[k])
  {
    assert run[..k + 1][..k] == run[..k];
  }

  /** What is recorded stays recorded. */
  lemma {:induction false} StaysRecorded(n: nat, run: seq<Action>, j: nat, m: nat, f: nat)
    requires j <= m <= |run| && f < n
    requires |Exec(Init(n), run[..j]).phases| == n && Exec(Init(n), run[..j]).phases[f].Recorded?
    ensures |Exec(Init(n), run[..m]).phases| == n
    ensures Exec(Init(n), run[..m]).phases[f] == Exec(Init(n), run[..j]).phases[f]
    decreases m - j
  {
    if j < m {
      StaysRecorded(n, run, j, m - 1, f);
      StateAfter(n, run, m - 1);
    }
  }

  /** While f waits to take, and nobody acts, its specs stay in the stash. */
  lemma {:induction false} UndisturbedStays(n: nat, run: seq<Action>, i: nat, m: nat)
    requires i <= m <= |run| && forall k :: i <= k < m ==> !Happens(n, run, k)
    ensures Exec(Init(n), run[..m]) == Exec(Init(n), run[..i])
    decreases m - i
  {
    if i < m {
      UndisturbedStays(n, run, i, m - 1);
      assert !Happens(n, run, m - 1);
      StateAfter(n, run, m - 1);
    }
  }

  /** Fan-outs put once: after f's put, its phase is never Placing again. */
  lemma {:induction false} PutOnce(n: nat, run: seq<Action>, i: nat, m: nat, f: nat)
    requires i <= m <= |run| && f < n
    requires |Exec(Init(n), run[..i]).phases| == n && Exec(Init(n), run[..i]).phases[f] != Placing
    ensures |Exec(Init(n), run[..m]).phases| == n && Exec(Init(n), run[..m]).phases[f] != Placing
    decreases m - i
  {
    if i < m {
      PutOnce(n, run, i, m - 1, f);
      StateAfter(n, run, m - 1);
    }
  }

  /** Once displaced, f's specs never come back. */
  lemma {:induction false} DisplacedForGood(n: nat, run: seq<Action>, i: nat, m: nat, f: nat)
    requires i <= m <= |run| && f < n
    requires var s := Exec(Init(n), run[..i]); |s.phases| == n && s.phases[f] != Placing && s.stash != Some(f)
    ensures Exec(Init(n), run[..m]).stash != Some(f)
    decreases m - i
  {
    if i < m {
      DisplacedForGood(n, run, i, m - 1, f);
      PutOnce(n, run, i, m - 1, f);
      StateAfter(n, run, m - 1);
    }
  }

  /** f's put and take, as they occur in the run. */
  predicate Spans(n: nat, run: seq<Action>, f: nat, i: nat, j: nat) {
    Happens(n, run, i) && run[i] == Put(f) && Happens(n, run, j) && run[j] == Take(f)
  }

  lemma PutBeforeTake(n: nat, run: seq<Action>, f: nat, i: nat, j: nat)
    requires Spans(n, run, f, i, j)
    ensures i < j && f < n && Exec(Init(n), run[..i + 1]) == State(Some(f), Exec(Init(n), run[..i]).phases[f := Stashed])
  {
    RunKeepsCount(n, run[..i]);
    RunKeepsCount(n, run[..j]);
    StateAfter(n, run, i);
    if j < i {
      PutOnce(n, run, j, i, f);
    }
  }

  /** What the take found is what is recorded at the end. */
  lemma TakenIsRecorded(n: nat, run: seq<Action>, f: nat, i: nat, j: nat)
    requires Spans(n, run, f, i, j)
    ensures |Exec(Init(n), run).phases| == n && f < n
    ensures Exec(Init(n), run).phases[f] == Recorded(Exec(Init(n), run[..j]).stash)
  {
    RunKeepsCount(n, run[..j]);
    StateAfter(n, run, j);
    StaysRecorded(n, run, j + 1, |run|, f);
    assert run[..|run|] == run;
  }

  /** A fan-out records its own specs if and only if no other fan-out touches the
      stash between its put and its take. */
  lemma OwnSpecsIff(n: nat, run: seq<Action>, f: nat, i: nat, j: nat)
    requires Spans(n, run, f, i, j)
    ensures |Exec(Init(n), run).phases| == n && f < n
    ensures Exec(Init(n), run).phases[f] == Recorded(Some(f)) <==> forall k :: i < k < j ==> !Happens(n, run, k)
  {
    TakenIsRecorded(n, run, f, i, j);
    PutBeforeTake(n, run, f, i, j);
    if k :| i < k < j && Happens(n, run, k) {
      DisplacedAt(n, run, f, i, k, j);
    } else {
      UndisturbedStays(n, run, i + 1, j);
    }
  }

  lemma DisplacedAt(n: nat, run: seq<Action>, f: nat, i: nat, k: nat, j: nat)
    requires Spans(n, run, f, i, j) && i < k < j && Happens(n, run, k)
    ensures Exec(Init(n), run[..j]).stash != Some(f)
  {
    PutBeforeTake(n, run, f, i, j);
    RunKeepsCount(n, run[..i]);
    RunKeepsCount(n, run[..k]);
    PutOnce(n, run, i + 1, k, f);
    StateAfter(n, run, k);
    DisplacedForGood(n, run, k + 1, j, f);
  }

  // ----- Nothing is taken twice, and losses balance -----------------------

  /** Whose specs have been recorded by somebody, and who recorded somebody's. */
  function TakenFrom(s: State): set<nat> {
    set f: nat | f < |s.phases| && s.phases[f].Recorded? && s.phases[f].got.Some? :: s.phases[f].got.value
  }

  function Served(s: State): set<nat> {
    set f: nat | f < |s.phases| && s.phases[f].Recorded? && s.phases[f].got.Some?
  }

  /** Nobody's specs were recorded twice. */
  predicate Once(phases: seq<Phase>) {
    forall f, g :: 0 <= f < |phases| && 0 <= g < |phases| && phases[f].Recorded? && phases[f].got.Some? && phases[f] == phases[g]
      ==> f == g
  }

  predicate StashOk(s: State) {
    s.stash.Some? ==> s.stash.value < |s.phases| && s.phases[s.stash.value] != Placing && s.stash.value !in TakenFrom(s)
  }

  predicate OwnersOk(s: State) {
    forall h :: h in TakenFrom(s) ==> h < |s.phases| && s.phases[h] != Placing
  }

  predicate Inv(s: State) {
    StashOk(s) && Once(s.phases) && |TakenFrom(s)| == |Served(s)| && OwnersOk(s)
  }

  lemma PutKeepsInv(s: State, f: nat)
    requires Inv(s) && Enabled(s, Put(f))
    ensures Inv(Step(s, Put(f)))
  {
    var s' := Step(s, Put(f));
    assert forall g :: 0 <= g < |s.phases| && g != f ==> s'.phases[g] == s.phases[g];
    assert Served(s') == Served(s);
    forall h
      ensures h in TakenFrom(s') <==> h in TakenFrom(s)
    {
      if h in TakenFrom(s) {
        var g: nat :| g < |s.phases| && s.phases[g].Recorded? && s.phases[g].got.Some? && s.phases[g].got.value == h;
        assert s'.phases[g] == s.phases[g];
      }
    }
    assert TakenFrom(s') == TakenFrom(s);
  }

  lemma TakeAdds(s: State, f: nat)
    requires Enabled(s, Take(f))
    ensures var s' := Step(s, Take(f));
            && Served(s') == Served(s) + (if s.stash.Some? then {f} else {}) && f !in Served(s)
            && TakenFrom(s') == TakenFrom(s) + (if s.stash.Some? then {s.stash.value} else {})
  {
    var s' := Step(s, Take(f));
    assert forall g :: 0 <= g < |s.phases| && g != f ==> s'.phases[g] == s.phases[g];
    assert s'.phases[f] == Recorded(s.stash);
    forall h | h in TakenFrom(s)
      ensures h in TakenFrom(s')
    {
      var g: nat :| g < |s.phases| && s.phases[g].Recorded? && s.phases[g].got.Some? && s.phases[g].got.value == h;
      assert s'.phases[g] == s.phases[g];
    }
  }

  /** Nobody has recorded what is still in the stash. */
  lemma TakeKeepsOnce(s: State, f: nat)
    requires Once(s.phases) && StashOk(s) && Enabled(s, Take(f))
    ensures Once(Step(s, Take(f)).phases)
  {
    forall g | 0 <= g < |s.phases| && s.phases[g].Recorded? && s.phases[g].got.Some?
      ensures s.phases[g].got != s.stash
    {
      assert s.phases[g].got.value in TakenFrom(s);
    }
  }

  lemma TakeKeepsBalance(s: State, f: nat)
    requires Enabled(s, Take(f)) && StashOk(s) && |TakenFrom(s)| == |Served(s)|
    ensures var s' := Step(s, Take(f)); |TakenFrom(s')| == |Served(s')|
  {
    TakeAdds(s, f);
  }

  lemma TakeKeepsOwners(s: State, f: nat)
    requires Enabled(s, Take(f)) && StashOk(s) && OwnersOk(s)
    ensures OwnersOk(Step(s, Take(f)))
  {
    TakeAdds(s, f);
    var s' := Step(s, Take(f));
    forall h | h in TakenFrom(s')
      ensures h < |s'.phases| && s'.phases[h] != Placing
    {
      assert h in TakenFrom(s) || s.stash == Some(h);
    }
  }

  lemma TakeKeepsInv(s: State, f: nat)
    requires Inv(s) && Enabled(s, Take(f))
    ensures Inv(Step(s, Take(f)))
  {
    TakeKeepsOnce(s, f);
    TakeKeepsBalance(s, f);
    TakeKeepsOwners(s, f);
  }

  lemma {:induction false} ExecKeepsInv(n: nat, run: seq<Action>)
    ensures Inv(Exec(Init(n), run))
    decreases |run|
  {
    if run == [] {
      assert TakenFrom(Init(n)) == {} && Served(Init(n)) == {};
    } else {
      var s, a := Exec(Init(n), run[..|run| - 1]), run[|run| - 1];
      ExecKeepsInv(n, run[..|run| - 1]);
      if Enabled(s, a) {
        match a
        case Put(f) => PutKeepsInv(s, f);
        case Take(f) => TakeKeepsInv(s, f);
      }
    }
  }

  /** No two fan-outs ever record the same one's specs. */
  lemma NeverTwice(n: nat, run: seq<Action>, f: nat, g: nat, h: nat)
    requires var s := Exec(Init(n), run);
             f < |s.phases| && g < |s.phases| && s.phases[f] == s.phases[g] == Recorded(Some(h))
    ensures f == g
  {
    ExecKeepsInv(n, run);
  }

  ghost function Below(n: nat): (r: set<nat>)
    ensures |r| == n && forall f: nat :: f in r <==> f < n
  {
    if n == 0 then {} else Below(n - 1) + {n - 1}
  }

  ghost function EmptyHanded(s: State): set<nat> {
    set f | f in Below(|s.phases|) && s.phases[f] == Recorded(None)
  }

  /** The fan-outs whose specs nobody recorded. */
  ghost function Lost(s: State): set<nat> { Below(|s.phases|) - TakenFrom(s) }

  /** When all have recorded, as many came away with nothing as lost their specs. */
  lemma LossesBalance(n: nat, run: seq<Action>)
    requires forall f :: 0 <= f < |Exec(Init(n), run).phases| ==> Exec(Init(n), run).phases[f].Recorded?
    ensures |EmptyHanded(Exec(Init(n), run))| == |Lost(Exec(Init(n), run))|
  {
    ExecKeepsInv(n, run);
    var s := Exec(Init(n), run);
    var all := Below(|s.phases|);
    assert EmptyHanded(s) == all - Served(s);
    SizeOfRest(all, Served(s));
    SizeOfRest(all, TakenFrom(s));
  }

  lemma SizeOfRest(a: set<nat>, b: set<nat>)
    requires b <= a
    ensures |a - b| == |a| - |b|
  {
    assert a == b + (a - b);
  }

  // ----- What it does to the slot table -----------------------------------

  lemma WrappedInjective(a: seq<Spec>, b: seq<Spec>)
    requires Wrapped(a) == Wrapped(b)
    ensures a == b
  {
    assert |a| == |Wrapped(a)| == |b|;
    forall i | 0 <= i < |a|
      ensures a[i] == b[i]
    {
      assert Wrapped(a)[i] == Some(a[i]) && Wrapped(b)[i] == Some(b[i]);
    }
  }

  /** A create that is handed `got` records its own specs exactly when that is what
      they are, and keeps members and specs aligned exactly when as many. */
  lemma CreateRecordsRightIff(d: Deployment, ps: seq<Placement>, specs: seq<Spec>, got: seq<Spec>)
    requires d.specs == [] && |specs| == |ps| > 0
    ensures AfterCreate(d, ps, got).specs == Wrapped(specs) <==> got == specs
    ensures Aligned(AfterCreate(d, ps, got)) <==> |got| == |ps|
  {
    assert |Wrapped(specs)| == |specs|;
    if AfterCreate(d, ps, got).specs == Wrapped(specs) {
      WrappedInjective(got, specs);
    }
  }

  /** So does a scale-up at the end of the table. */
  lemma AppendRecordsRightIff(d: Deployment, ps: seq<Placement>, specs: seq<Spec>, got: seq<Spec>)
    requires Aligned(d) && |specs| == |ps| > 0
    ensures var e := AfterAppend(d, ps, got, |d.replicas|);
            && (e.specs == d.specs + Wrapped(specs) <==> got == specs)
            && (Aligned(e) <==> |got| == |ps|)
  {
    var e := AfterAppend(d, ps, got, |d.replicas|);
    assert |Wrapped(specs)| == |specs|;
    assert e.specs == if |got| == |ps| then d.specs + Wrapped(got) else d.specs;
    if e.specs == d.specs + Wrapped(specs) {
      assert e.specs[|d.specs|..] == Wrapped(specs);
      assert (d.specs + Wrapped(got))[|d.specs|..] == Wrapped(got);
      WrappedInjective(got, specs);
    }
  }

  /** Action k is the last that touches the stash before action j. */
  predicate LastBefore(n: nat, run: seq<Action>, k: nat, j: nat) {
    k < j && Happens(n, run, k) && forall l :: k < l < j ==> !Happens(n, run, l)
  }

  lemma {:induction false} FindLast(n: nat, run: seq<Action>, i: nat, j: nat) returns (k: nat)
    requires i < j <= |run| && Happens(n, run, i)
    ensures i <= k && LastBefore(n, run, k, j)
    decreases j
  {
    if Happens(n, run, j - 1) {
      k := j - 1;
    } else {
      k := FindLast(n, run, i, j - 1);
    }
  }

  /** What a fan-out takes is what the last action before left: the specs of the one
      that put, or nothing after a take. */
  lemma TakesWhatWasLeft(n: nat, run: seq<Action>, f: nat, i: nat, j: nat, k: nat)
    requires Spans(n, run, f, i, j) && LastBefore(n, run, k, j)
    ensures |Exec(Init(n), run).phases| == n && f < n
    ensures Exec(Init(n), run).phases[f] == Recorded(if run[k].Put? then Some(run[k].f) else None)
  {
    TakenIsRecorded(n, run, f, i, j);
    StateAfter(n, run, k);
    UndisturbedStays(n, run, k + 1, j);
  }

  /** End to end: a create records the specs it was asked for if and only if the last
      action to touch the stash before its take is a put, its own or another's, of
      the same specs. */
  lemma CreateTableRightIff(specs: seq<seq<Spec>>, run: seq<Action>, f: nat, i: nat, j: nat, d: Deployment, ps: seq<Placement>)
    returns (k: nat)
    requires Spans(|specs|, run, f, i, j) && d.specs == [] && f < |specs| && |specs[f]| == |ps| > 0
    ensures i <= k && LastBefore(|specs|, run, k, j) && run[k].f < |specs|
    ensures var s := Exec(Init(|specs|), run);
            && f < |s.phases| && s.phases[f].Recorded?
            && (AfterCreate(d, ps, Handed(specs, s.phases[f].got)).specs == Wrapped(specs[f])
                <==> run[k].Put? && specs[run[k].f] == specs[f])
  {
    var n := |specs|;
    PutBeforeTake(n, run, f, i, j);
    k := FindLast(n, run, i, j);
    RunKeepsCount(n, run[..k]);
    TakesWhatWasLeft(n, run, f, i, j, k);
    CreateRecordsRightIff(d, ps, specs[f], Handed(specs, Exec(Init(n), run).phases[f].got));
  }

  /** Two overlapping fan-outs: the first to take gets the other's specs, and the
      other gets none. */
  lemma OverlapSwaps()
    ensures Exec(Init(2), [Put(0), Put(1), Take(0), Take(1)]) == State(None, [Recorded(Some(1)), Recorded(None)])
  {
    var run := [Put(0), Put(1), Take(0), Take(1)];
    assert run[..0] == [] && run[..4] == run;
    assert Init(2).phases == [Placing, Placing];
    StateAfter(2, run, 0);
    assert Exec(Init(2), run[..1]) == State(Some(0), [Stashed, Placing]);
    StateAfter(2, run, 1);
    assert Exec(Init(2), run[..2]) == State(Some(1), [Stashed, Stashed]);
    StateAfter(2, run, 2);
    assert Exec(Init(2), run[..3]) == State(None, [Recorded(Some(1)), Stashed]);
    StateAfter(2, run, 3);
  }
}
