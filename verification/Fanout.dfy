/** Replica fan-out (internal/provisioners/fanout.go and effective.go): the slot
    table of a deployment record, the updates its machines report into it in any
    order, and the aggregate state stamped when every slot has answered. */
module Fanout {
  import opened Common

  datatype DeployState =
    | Unspecified | Pending | Starting | Configuring | Running | Degraded | Failed | Terminating | Terminated

  /** One replica: the machines behind it, rank 0 first, and its endpoint. */
  datatype Member = Member(ids: seq<string>, endpoint: string)

  datatype Spec = Spec(provider: string, region: string, nodes: int)

  datatype Deployment = Deployment(
    replicas: seq<Member>, specs: seq<Option<Spec>>, instanceId: string, endpoint: string, state: DeployState)

  /** The part of a DeployStateUpdate that reaches the deployment record. */
  datatype Update = Update(state: DeployState, endpoint: string)

  // ----- Provisioning states ----------------------------------------------

  function Rank(s: DeployState): nat {
    match s
    case Pending => 1
    case Starting => 2
    case Configuring => 3
    case _ => 0
  }

  /** Whether, and to what, one slot's update may move the deployment. */
  function ProvisioningAdvance(current: DeployState, update: DeployState): (DeployState, bool) {
    if Rank(update) == 0 then (current, false)
    else if Rank(update) <= Rank(current) then (current, false)
    else (update, true)
  }

  // ----- Members ----------------------------------------------------------

  /** The first member holding the machine, or -1. */
  function MemberOf(reps: seq<Member>, id: string): (r: int)
    ensures -1 <= r < |reps|
    ensures r >= 0 ==> id in reps[r].ids && forall j :: 0 <= j < r ==> id !in reps[j].ids
    ensures r < 0 ==> forall j :: 0 <= j < |reps| ==> id !in reps[j].ids
  {
    if reps == [] then -1
    else if id in reps[0].ids then 0
    else
      var r := MemberOf(reps[1..], id);
      if r < 0 then -1 else r + 1
  }

  predicate IsPrimary(reps: seq<Member>, slot: int, id: string) {
    0 <= slot < |reps| && reps[slot].ids != [] && reps[slot].ids[0] == id
  }

  /** No machine backs two members. */
  predicate DistinctMachines(reps: seq<Member>) {
    forall i, j, id :: 0 <= i < |reps| && 0 <= j < |reps| && id in reps[i].ids && id in reps[j].ids ==> i == j
  }

  function PatchSlot(d: Deployment, id: string, u: Update): Deployment {
    var slot := MemberOf(d.replicas, id);
    if slot < 0 then d
    else
      var named := u.endpoint != "" && IsPrimary(d.replicas, slot, id);
      d.(replicas := if named then d.replicas[slot := d.replicas[slot].(endpoint := u.endpoint)] else d.replicas,
         endpoint := if named && slot == 0 && d.endpoint == "" then u.endpoint else d.endpoint,
         state := ProvisioningAdvance(d.state, u.state).0)
  }

  // ----- Recording slots --------------------------------------------------

  /** What one member's placement produced: its machines, none if it failed. */
  type Placement = seq<string>

  function Wrapped(specs: seq<Spec>): seq<Option<Spec>> {
    seq(|specs|, i requires 0 <= i < |specs| => Some(specs[i]))
  }

  function Members(ps: seq<Placement>): seq<Member> {
    seq(|ps|, i requires 0 <= i < |ps| => Member(ps[i], ""))
  }

  function AfterCreate(d: Deployment, ps: seq<Placement>, specs: seq<Spec>): Deployment {
    d.(replicas := Members(ps),
       instanceId := if |ps| == 1 && |ps[0]| == 1 then ps[0][0] else d.instanceId,
       specs := if |specs| == |ps| then Wrapped(specs) else d.specs)
  }

  /** Padded to n entries. */
  function Padded<T>(s: seq<T>, n: nat, x: T): seq<T> {
    if |s| >= n then s else s + seq(n - |s|, i => x)
  }

  function Stamped(reps: seq<Member>, start: nat, ps: seq<Placement>): seq<Member>
    requires start + |ps| <= |reps|
  {
    seq(|reps|, i requires 0 <= i < |reps| =>
      if start <= i < start + |ps| then reps[i].(ids := ps[i - start]) else reps[i])
  }

  function AfterAppend(d: Deployment, ps: seq<Placement>, specs: seq<Spec>, start: nat): Deployment {
    var padded := Padded(d.specs, start, None);
    d.(replicas := Stamped(Padded(d.replicas, start + |ps|, Member([], "")), start, ps),
       specs := if |specs| == |ps| then padded + Wrapped(specs) else padded)
  }

  method PadTo<T>(s: seq<T>, n: nat, x: T) returns (r: seq<T>)
    ensures r == Padded(s, n, x)
  {
    r := s;
    while |r| < n
      invariant |s| <= |r| && r == Padded(s, |r|, x)
      invariant |r| > |s| ==> |r| <= n
    {
      r := r + [x];
    }
  }

  method Stamp(reps: seq<Member>, start: nat, ps: seq<Placement>) returns (r: seq<Member>)
    requires start + |ps| <= |reps|
    ensures r == Stamped(reps, start, ps)
  {
    r := reps;
    for i := 0 to |ps|
      invariant |r| == |reps|
      invariant forall j :: 0 <= j < |reps| ==>
        r[j] == if start <= j < start + i then reps[j].(ids := ps[j - start]) else reps[j]
    {
      r := r[start + i := r[start + i].(ids := ps[i])];
    }
  }

  // ----- Aggregation ------------------------------------------------------

  function Aggregate(count: nat, successes: nat): DeployState {
    if successes == count then Running else if successes > 0 then Degraded else Failed
  }

  /** After a scale-up only failures are written. */
  function ScaleAggregate(state: DeployState, delta: nat, successes: nat): DeployState {
    if successes == delta then state else Degraded
  }

  /** A deployment record in the state file, updated in place. */
  class DeploymentRecord {
    var replicas: seq<Member>
    var specs: seq<Option<Spec>>
    var instanceId: string
    var endpoint: string
    var state: DeployState

    ghost function Value(): Deployment
      reads this
    {
      Deployment(replicas, specs, instanceId, endpoint, state)
    }

    constructor ()
      ensures Value() == Deployment([], [], "", "", Pending)
    {
      replicas, specs, instanceId, endpoint, state := [], [], "", "", Pending;
    }

    /** MemberOf as the source searches for it. */
    method FindMember(id: string) returns (r: int)
      ensures r == MemberOf(replicas, id)
    {
      for i := 0 to |replicas|
        invariant forall j :: 0 <= j < i ==> id !in replicas[j].ids
      {
        var ids := replicas[i].ids;
        for k := 0 to |ids|
          invariant forall j :: 0 <= j < k ==> ids[j] != id
        {
          if ids[k] == id {
            return i;
          }
        }
      }
      return -1;
    }

    method Patch(id: string, u: Update)
      modifies this
      ensures Value() == PatchSlot(old(Value()), id, u)
    {
      var slot := FindMember(id);
      if slot < 0 {
        return;
      }
      var primary := "";
      var hasPrimary := |replicas[slot].ids| > 0;
      if hasPrimary {
        primary := replicas[slot].ids[0];
      }
      if u.endpoint != "" && hasPrimary && id == primary {
        replicas := replicas[slot := replicas[slot].(endpoint := u.endpoint)];
        if slot == 0 && endpoint == "" {
          endpoint := u.endpoint;
        }
      }
      var (next, ok) := ProvisioningAdvance(state, u.state);
      if ok {
        state := next;
      }
    }

    method RecordCreateSlots(ps: seq<Placement>, newSpecs: seq<Spec>)
      modifies this
      ensures Value() == AfterCreate(old(Value()), ps, newSpecs)
      ensures |replicas| == |ps| && forall i :: 0 <= i < |ps| ==> replicas[i] == Member(ps[i], "")
      ensures instanceId == if |ps| == 1 && |ps[0]| == 1 then ps[0][0] else old(instanceId)
      ensures |newSpecs| == |ps| ==> |specs| == |ps| && forall i :: 0 <= i < |ps| ==> specs[i] == Some(newSpecs[i])
      ensures |newSpecs| != |ps| ==> specs == old(specs)
      ensures endpoint == old(endpoint) && state == old(state)
    {
      replicas := [];
      for i := 0 to |ps|
        invariant replicas == Members(ps)[..i]
        invariant specs == old(specs) && instanceId == old(instanceId) && endpoint == old(endpoint) && state == old(state)
      {
        replicas := replicas + [Member(ps[i], "")];
      }
      if |ps| == 1 && |ps[0]| == 1 {
        instanceId := ps[0][0];
      }
      if |newSpecs| == |ps| {
        specs := Wrapped(newSpecs);
      }
    }

    method RecordAppendedSlots(ps: seq<Placement>, newSpecs: seq<Spec>, start: nat)
      modifies this
      ensures Value() == AfterAppend(old(Value()), ps, newSpecs, start)
    {
      replicas := PadTo(replicas, start + |ps|, Member([], ""));
      specs := PadTo(specs, start, None);
      replicas := Stamp(replicas, start, ps);
      if |newSpecs| == |ps| {
        specs := specs + Wrapped(newSpecs);
      }
    }

    /** What a create's fan-out stamps when every slot has answered. */
    method ApplyAggregateState(count: nat, successes: nat)
      modifies this`state
      ensures state == Aggregate(count, successes)
    {
      if successes == count {
        state := Running;
      } else if successes > 0 {
        state := Degraded;
      } else {
        state := Failed;
      }
    }

    method ApplyScaleAggregate(delta: nat, successes: nat)
      modifies this`state
      ensures state == ScaleAggregate(old(state), delta, successes)
    {
      if successes == delta {
        return;
      }
      state := Degraded;
    }
  }

  // ----- Endpoints under every interleaving -------------------------------

  /** A machine's report. */
  datatype Report = Report(id: string, u: Update)

  function PatchAll(d: Deployment, h: seq<Report>): Deployment
    decreases |h|
  {
    if h == [] then d else
    var d' := PatchAll(d, h[..|h| - 1]);
    PatchSlot(d', h[|h| - 1].id, h[|h| - 1].u)
  }

  /** The last endpoint a machine reported, or init if it reported none. */
  function LastEndpoint(h: seq<Report>, id: string, init: string): string {
    if h == [] then init
    else
      var r := h[|h| - 1];
      if r.id == id && r.u.endpoint != "" then r.u.endpoint else LastEndpoint(h[..|h| - 1], id, init)
  }

  function FirstEndpoint(h: seq<Report>, id: string): string {
    if h == [] then ""
    else
      var before, r := FirstEndpoint(h[..|h| - 1], id), h[|h| - 1];
      if before != "" then before else if r.id == id then r.u.endpoint else ""
  }

  predicate SameMachines(d: Deployment, e: Deployment) {
    |d.replicas| == |e.replicas| && forall i :: 0 <= i < |d.replicas| ==> d.replicas[i].ids == e.replicas[i].ids
  }

  lemma MemberOfUnique(reps: seq<Member>, i: nat, id: string)
    requires DistinctMachines(reps) && i < |reps| && id in reps[i].ids
    ensures MemberOf(reps, id) == i
  {
  }

  /** Which machines back which member is never touched by an update. */
  lemma {:induction false} UpdatesKeepMachines(d: Deployment, h: seq<Report>)
    ensures SameMachines(d, PatchAll(d, h)) && PatchAll(d, h).specs == d.specs && PatchAll(d, h).instanceId == d.instanceId
    decreases |h|
  {
    if h != [] {
      UpdatesKeepMachines(d, h[..|h| - 1]);
    }
  }

  lemma SameMachinesDistinct(d: Deployment, e: Deployment)
    requires SameMachines(d, e) && DistinctMachines(d.replicas)
    ensures DistinctMachines(e.replicas)
  {
  }

  /** A member's endpoint is the last one its rank-0 machine reported: whatever
      the other machines, of this or any other member, reported and when. */
  lemma {:induction false} EndpointIsLastFromPrimary(d: Deployment, h: seq<Report>, i: nat)
    requires DistinctMachines(d.replicas) && i < |d.replicas|
    ensures |PatchAll(d, h).replicas| == |d.replicas|
    ensures PatchAll(d, h).replicas[i].endpoint
         == if d.replicas[i].ids == [] then d.replicas[i].endpoint
            else LastEndpoint(h, d.replicas[i].ids[0], d.replicas[i].endpoint)
    decreases |h|
  {
    UpdatesKeepMachines(d, h);
    if h != [] {
      var h', r := h[..|h| - 1], h[|h| - 1];
      EndpointIsLastFromPrimary(d, h', i);
      UpdatesKeepMachines(d, h');
      var e := PatchAll(d, h');
      SameMachinesDistinct(d, e);
      if r.id in e.replicas[i].ids {
        MemberOfUnique(e.replicas, i, r.id);
      }
    }
  }

  /** The singular endpoint is written at most once, and only with the first
      endpoint slot 0's rank-0 machine reports. */
  lemma {:induction false} SingularEndpointSetOnce(d: Deployment, h: seq<Report>)
    requires DistinctMachines(d.replicas)
    ensures PatchAll(d, h).endpoint
         == if d.endpoint != "" || d.replicas == [] || d.replicas[0].ids == [] then d.endpoint
            else FirstEndpoint(h, d.replicas[0].ids[0])
    decreases |h|
  {
    if h != [] {
      var h', r := h[..|h| - 1], h[|h| - 1];
      SingularEndpointSetOnce(d, h');
      UpdatesKeepMachines(d, h');
      var e := PatchAll(d, h');
      SameMachinesDistinct(d, e);
      if e.replicas != [] && r.id in e.replicas[0].ids {
        MemberOfUnique(e.replicas, 0, r.id);
      }
    }
  }

  // ----- The state under every interleaving -------------------------------

  /** The report comes from a machine of the deployment, so its state counts. */
  predicate Counts(d: Deployment, r: Report) { MemberOf(d.replicas, r.id) >= 0 }

  /** The highest rank among the starting state and the reports that count. */
  function TopRank(d: Deployment, h: seq<Report>): nat {
    if h == [] then Rank(d.state)
    else
      var before, r := TopRank(d, h[..|h| - 1]), h[|h| - 1];
      if Counts(d, r) && Rank(r.u.state) > before then Rank(r.u.state) else before
  }

  lemma SameMembership(d: Deployment, e: Deployment, id: string)
    requires SameMachines(d, e)
    ensures MemberOf(d.replicas, id) == MemberOf(e.replicas, id)
  {
  }

  /** While provisioning, the state is the most advanced one anybody reported. */
  lemma {:induction false} StateIsTopRank(d: Deployment, h: seq<Report>)
    requires Rank(d.state) > 0
    ensures Rank(PatchAll(d, h).state) == TopRank(d, h) > 0
    decreases |h|
  {
    if h != [] {
      var h' := h[..|h| - 1];
      StateIsTopRank(d, h');
      UpdatesKeepMachines(d, h');
      SameMembership(d, PatchAll(d, h'), h[|h| - 1].id);
    }
  }

  /** TopRank is an upper bound, and it is attained. */
  lemma {:induction false} TopRankIsMax(d: Deployment, h: seq<Report>)
    ensures TopRank(d, h) >= Rank(d.state)
    ensures forall i :: 0 <= i < |h| && Counts(d, h[i]) ==> TopRank(d, h) >= Rank(h[i].u.state)
    ensures TopRank(d, h) == Rank(d.state)
         || exists i :: 0 <= i < |h| && Counts(d, h[i]) && TopRank(d, h) == Rank(h[i].u.state)
    decreases |h|
  {
    if h != [] {
      var h' := h[..|h| - 1];
      TopRankIsMax(d, h');
      assert forall i :: 0 <= i < |h'| ==> h[i] == h'[i];
    }
  }

  /** Some machine of the deployment reports the state. */
  predicate Reports(d: Deployment, h: seq<Report>, state: DeployState) {
    exists i :: 0 <= i < |h| && Counts(d, h[i]) && h[i].u.state == state
  }

  lemma ReportsSplit(d: Deployment, h: seq<Report>, state: DeployState)
    requires h != []
    ensures var r := h[|h| - 1];
            Reports(d, h, state) <==> Reports(d, h[..|h| - 1], state) || (Counts(d, r) && r.u.state == state)
  {
    var h' := h[..|h| - 1];
    assert forall i :: 0 <= i < |h'| ==> h[i] == h'[i];
    assert h[|h| - 1] == h[|h'|];
    if Reports(d, h', state) {
      var i :| 0 <= i < |h'| && Counts(d, h'[i]) && h'[i].u.state == state;
      assert Counts(d, h[i]) && h[i].u.state == state;
    }
  }

  /** By name: a deployment being provisioned is CONFIGURING exactly when it began
      there or some machine says so, else STARTING exactly when it began there or
      some machine says so, else PENDING. */
  lemma {:induction false} StateByReports(d: Deployment, h: seq<Report>)
    requires d.state in {Pending, Starting, Configuring}
    ensures PatchAll(d, h).state
         == if d.state == Configuring || Reports(d, h, Configuring) then Configuring
            else if d.state == Starting || Reports(d, h, Starting) then Starting
            else Pending
    decreases |h|
  {
    if h != [] {
      var h' := h[..|h| - 1];
      StateByReports(d, h');
      UpdatesKeepMachines(d, h');
      SameMembership(d, PatchAll(d, h'), h[|h| - 1].id);
      ReportsSplit(d, h, Configuring);
      ReportsSplit(d, h, Starting);
    }
  }

  /** Two interleavings of the same reports lead to the same provisioning state,
      and so does any repetition of them. */
  lemma StateOrderIndependent(d: Deployment, h: seq<Report>, g: seq<Report>)
    requires Rank(d.state) > 0
    requires forall r :: r in h <==> r in g
    ensures PatchAll(d, h).state == PatchAll(d, g).state
  {
    StateIsTopRank(d, h);
    StateIsTopRank(d, g);
    TopRankAtMost(d, h, g);
    TopRankAtMost(d, g, h);
  }

  lemma TopRankAtMost(d: Deployment, h: seq<Report>, g: seq<Report>)
    requires forall r :: r in h ==> r in g
    ensures TopRank(d, h) <= TopRank(d, g)
  {
    TopRankIsMax(d, h);
    TopRankIsMax(d, g);
    if TopRank(d, h) != Rank(d.state) {
      var i :| 0 <= i < |h| && Counts(d, h[i]) && TopRank(d, h) == Rank(h[i].u.state);
      assert h[i] in g;
    }
  }

  /** No machine of the deployment reports a provisioning state. */
  predicate NobodyProvisions(d: Deployment, h: seq<Report>) {
    forall i :: 0 <= i < |h| && Counts(d, h[i]) ==> Rank(h[i].u.state) == 0
  }

  lemma NobodyProvisionsSplit(d: Deployment, h: seq<Report>)
    requires h != []
    ensures var r := h[|h| - 1];
            NobodyProvisions(d, h)
            <==> NobodyProvisions(d, h[..|h| - 1]) && (Counts(d, r) ==> Rank(r.u.state) == 0)
  {
    var h' := h[..|h| - 1];
    assert forall i :: 0 <= i < |h'| ==> h[i] == h'[i];
    assert h[|h| - 1] == h[|h'|];
  }

  /** A deployment that is already serving is not protected: during a scale-up
      its state survives exactly when no machine of it reports a provisioning
      state. */
  lemma {:induction false} ServingStateSurvivesIff(d: Deployment, h: seq<Report>)
    requires d.state == Running || d.state == Degraded
    ensures PatchAll(d, h).state == d.state <==> NobodyProvisions(d, h)
    ensures Rank(PatchAll(d, h).state) > 0 || PatchAll(d, h).state == d.state
    decreases |h|
  {
    if h != [] {
      var h' := h[..|h| - 1];
      ServingStateSurvivesIff(d, h');
      UpdatesKeepMachines(d, h');
      SameMembership(d, PatchAll(d, h'), h[|h| - 1].id);
      NobodyProvisionsSplit(d, h);
    }
  }

  /** And a fully successful scale-up does not put it back: after the whole
      operation a RUNNING deployment is RUNNING exactly when every new replica
      came up and nobody reported a provisioning state on the way. */
  lemma ScaleUpKeepsRunningIff(d: Deployment, h: seq<Report>, delta: nat, successes: nat)
    requires d.state == Running
    ensures ScaleAggregate(PatchAll(d, h).state, delta, successes) == Running
       <==> successes == delta && NobodyProvisions(d, h)
  {
    ServingStateSurvivesIff(d, h);
  }

  /** A DEGRADED one stays so unless all new replicas come up and somebody reports. */
  lemma ScaleUpKeepsDegradedIff(d: Deployment, h: seq<Report>, delta: nat, successes: nat)
    requires d.state == Degraded
    ensures ScaleAggregate(PatchAll(d, h).state, delta, successes) == Degraded
       <==> successes != delta || NobodyProvisions(d, h)
  {
    ServingStateSurvivesIff(d, h);
  }

  // ----- The slot table ---------------------------------------------------

  predicate Aligned(d: Deployment) { |d.replicas| == |d.specs| }

  /** Every member and spec of d is still there, in place and unchanged. */
  predicate Extends(d: Deployment, e: Deployment) {
    d.replicas <= e.replicas && d.specs <= e.specs
  }

  lemma AppendLengths(d: Deployment, ps: seq<Placement>, specs: seq<Spec>, start: nat)
    requires Aligned(d) && |specs| == |ps| > 0
    ensures Aligned(AfterAppend(d, ps, specs, start)) <==> start >= |d.replicas|
  {
  }

  lemma AppendMembers(d: Deployment, ps: seq<Placement>, specs: seq<Spec>, start: nat)
    requires start >= |d.replicas|
    ensures var e := AfterAppend(d, ps, specs, start);
            && |e.replicas| == start + |ps| && d.replicas <= e.replicas
            && (forall i :: |d.replicas| <= i < start ==> e.replicas[i] == Member([], ""))
            && forall i :: 0 <= i < |ps| ==> e.replicas[start + i] == Member(ps[i], "")
  {
    var e := AfterAppend(d, ps, specs, start);
    forall i | 0 <= i < |d.replicas|
      ensures e.replicas[i] == d.replicas[i]
    {
    }
  }

  lemma AppendSpecs(d: Deployment, ps: seq<Placement>, specs: seq<Spec>, start: nat)
    requires |specs| == |ps| && start >= |d.specs|
    ensures var e := AfterAppend(d, ps, specs, start);
            && |e.specs| == start + |ps| && d.specs <= e.specs
            && (forall i :: |d.specs| <= i < start ==> e.specs[i] == None)
            && forall i :: 0 <= i < |ps| ==> e.specs[start + i] == Some(specs[i])
  {
    var e, padded := AfterAppend(d, ps, specs, start), Padded(d.specs, start, None);
    assert e.specs == padded + Wrapped(specs) && d.specs <= padded;
  }

  /** Appending at or past the end keeps members and specs aligned and leaves the
      existing ones alone; appending at a stale start, as two overlapping
      scale-ups do, always breaks the alignment. */
  lemma AppendKeepsTableIff(d: Deployment, ps: seq<Placement>, specs: seq<Spec>, start: nat)
    requires Aligned(d) && |specs| == |ps| > 0
    ensures var e := AfterAppend(d, ps, specs, start);
            Aligned(e) && Extends(d, e) <==> start >= |d.replicas|
    ensures start >= |d.replicas| ==>
              var e := AfterAppend(d, ps, specs, start);
              && |e.replicas| == |e.specs| == start + |ps|
              && (forall i :: |d.replicas| <= i < start ==> e.replicas[i] == Member([], "") && e.specs[i] == None)
              && forall i :: 0 <= i < |ps| ==>
                   e.replicas[start + i] == Member(ps[i], "") && e.specs[start + i] == Some(specs[i])
  {
    AppendLengths(d, ps, specs, start);
    if start >= |d.replicas| {
      AppendMembers(d, ps, specs, start);
      AppendSpecs(d, ps, specs, start);
    }
  }

  /** One create or scale-up: what was asked for and what was placed. */
  datatype Batch = Batch(placed: seq<Placement>, specs: seq<Spec>)

  predicate Sane(b: Batch) { |b.specs| == |b.placed| > 0 }

  /** A create followed by serialized scale-ups, each starting at the table's
      end. */
  function SlotTable(d: Deployment, bs: seq<Batch>): Deployment
    requires bs != []
  {
    var n := |bs| - 1;
    if n == 0 then AfterCreate(d, bs[0].placed, bs[0].specs)
    else
      var e := SlotTable(d, bs[..n]);
      AfterAppend(e, bs[n].placed, bs[n].specs, |e.replicas|)
  }

  function AllPlaced(bs: seq<Batch>): seq<Placement> {
    if bs == [] then [] else AllPlaced(bs[..|bs| - 1]) + bs[|bs| - 1].placed
  }

  function AllSpecs(bs: seq<Batch>): seq<Spec> {
    if bs == [] then [] else AllSpecs(bs[..|bs| - 1]) + bs[|bs| - 1].specs
  }

  /** Appending at the end of a table that lists xs gives one that lists xs + ys. */
  lemma AppendAtEnd(d: Deployment, xs: seq<Placement>, ys: seq<Placement>)
    requires d.replicas == Members(xs)
    ensures Stamped(Padded(d.replicas, |xs| + |ys|, Member([], "")), |xs|, ys) == Members(xs + ys)
  {
    var padded := Padded(d.replicas, |xs| + |ys|, Member([], ""));
    assert |padded| == |xs| + |ys|;
    forall i | 0 <= i < |xs| + |ys|
      ensures Stamped(padded, |xs|, ys)[i] == Members(xs + ys)[i]
    {
    }
  }

  lemma WrappedConcat(xs: seq<Spec>, ys: seq<Spec>)
    ensures Wrapped(xs) + Wrapped(ys) == Wrapped(xs + ys)
  {
  }

  /** After any serialized sequence the table is exactly the list of members
      asked for, in order, failed ones included with no machines, and its spec
      list is the list of specs asked for. */
  lemma {:induction false} SlotTableIsHistory(d: Deployment, bs: seq<Batch>)
    requires bs != [] && forall i :: 0 <= i < |bs| ==> Sane(bs[i])
    ensures SlotTable(d, bs).replicas == Members(AllPlaced(bs))
    ensures SlotTable(d, bs).specs == Wrapped(AllSpecs(bs))
    ensures |AllPlaced(bs)| == |AllSpecs(bs)|
  {
    var n := |bs| - 1;
    var b := bs[n];
    assert Sane(b);
    if n == 0 {
      assert bs[..0] == [];
      assert AllPlaced(bs[..0]) == [] && AllSpecs(bs[..0]) == [];
      assert AllPlaced(bs) == b.placed && AllSpecs(bs) == b.specs;
    } else {
      var before := bs[..n];
      SlotTableIsHistory(d, before);
      var e := SlotTable(d, before);
      AppendAtEnd(e, AllPlaced(before), b.placed);
      WrappedConcat(AllSpecs(before), b.specs);
      assert SlotTable(d, bs) == AfterAppend(e, b.placed, b.specs, |e.replicas|);
    }
  }

  /** So a later scale-up never changes an earlier slot. */
  lemma SlotTableAppendOnly(d: Deployment, bs: seq<Batch>, more: Batch)
    requires bs != [] && Sane(more) && forall i :: 0 <= i < |bs| ==> Sane(bs[i])
    ensures Extends(SlotTable(d, bs), SlotTable(d, bs + [more])) && Aligned(SlotTable(d, bs + [more]))
  {
    SlotTableIsHistory(d, bs);
    assert (bs + [more])[..|bs|] == bs;
    var e := SlotTable(d, bs);
    AppendKeepsTableIff(e, more.placed, more.specs, |e.replicas|);
  }
}
