/** Which replicas the router offers (internal/router/replicas.go), and how the
    health loop's snapshot pairs endpoints with machines
    (internal/healthcheck/source.go, internal/provisioners/effective.go). */
module Router {
  import opened Common
  import opened Fanout

  /** The routed part of a deployment record. The singular fields serve records
      with no members. */
  datatype Record = Record(replicas: seq<Member>, instanceId: string, endpoint: string, unhealthy: seq<string>)

  /** What a policy may pick. */
  datatype Replica = Replica(instanceId: string, endpoint: string)

  /** What the health loop probes. */
  datatype Probed = Probed(instanceId: string, endpoint: string, quarantined: bool)

  // ----- Members, endpoints, machines -------------------------------------

  function EffectiveEndpoints(r: Record): seq<string> {
    if r.replicas != [] then seq(|r.replicas|, i requires 0 <= i < |r.replicas| => r.replicas[i].endpoint)
    else if r.endpoint != "" then [r.endpoint] else []
  }

  function MemberIds(r: Record): seq<seq<string>> {
    if r.replicas != [] then seq(|r.replicas|, i requires 0 <= i < |r.replicas| => r.replicas[i].ids)
    else if r.instanceId != "" then [[r.instanceId]] else []
  }

  function Flatten(reps: seq<Member>): seq<string> {
    if reps == [] then [] else reps[0].ids + Flatten(reps[1..])
  }

  /** Every machine, flattened across members; the singular id when there is none. */
  function EffectiveInstanceIds(r: Record): seq<string> {
    if Flatten(r.replicas) != [] then Flatten(r.replicas)
    else if r.instanceId != "" then [r.instanceId] else []
  }

  lemma {:induction false} FlattenConcat(a: seq<Member>, b: seq<Member>)
    ensures Flatten(a + b) == Flatten(a) + Flatten(b)
  {
    if a == [] {
      assert a + b == b;
    } else {
      FlattenConcat(a[1..], b);
      assert (a + b)[1..] == a[1..] + b && (a + b)[0] == a[0];
      Associates(a[0].ids, Flatten(a[1..]), Flatten(b));
    }
  }

  method CollectInstanceIds(r: Record) returns (out: seq<string>)
    ensures out == EffectiveInstanceIds(r)
  {
    out := [];
    for i := 0 to |r.replicas|
      invariant out == Flatten(r.replicas[..i])
    {
      FlattenConcat(r.replicas[..i], [r.replicas[i]]);
      assert r.replicas[..i + 1] == r.replicas[..i] + [r.replicas[i]];
      assert Flatten([r.replicas[i]]) == r.replicas[i].ids;
      out := out + r.replicas[i].ids;
    }
    assert r.replicas[..|r.replicas|] == r.replicas;
    if out == [] && r.instanceId != "" {
      out := [r.instanceId];
    }
  }

  function Nodes(r: Record, i: nat): seq<string> {
    if i < |MemberIds(r)| then MemberIds(r)[i] else []
  }

  function Primary(r: Record, i: nat): string {
    if Nodes(r, i) != [] then Nodes(r, i)[0] else ""
  }

  /** What the views are, by position: members first; the singular fields only for a
      record that has none, and then only if they are filled in. */
  lemma ViewTable(r: Record)
    ensures r.replicas != [] ==>
              && |EffectiveEndpoints(r)| == |MemberIds(r)| == |r.replicas|
              && forall i :: 0 <= i < |r.replicas| ==>
                   && EffectiveEndpoints(r)[i] == r.replicas[i].endpoint && Nodes(r, i) == r.replicas[i].ids
                   && Primary(r, i) == if r.replicas[i].ids == [] then "" else r.replicas[i].ids[0]
    ensures r.replicas != [] ==>
              EffectiveInstanceIds(r) == if Flatten(r.replicas) != [] then Flatten(r.replicas)
                                         else if r.instanceId == "" then [] else [r.instanceId]
    ensures r.replicas == [] ==>
              && EffectiveEndpoints(r) == (if r.endpoint == "" then [] else [r.endpoint])
              && MemberIds(r) == (if r.instanceId == "" then [] else [[r.instanceId]])
              && Primary(r, 0) == r.instanceId
              && EffectiveInstanceIds(r) == (if r.instanceId == "" then [] else [r.instanceId])
  {
  }

  // ----- Eligibility ------------------------------------------------------

  /** The member has an endpoint and none of its named nodes is quarantined. */
  predicate Offered(r: Record, i: nat) {
    i < |EffectiveEndpoints(r)| && EffectiveEndpoints(r)[i] != ""
    && forall id :: id in Nodes(r, i) && id != "" ==> id !in r.unhealthy
  }

  method AnyQuarantined(quarantined: set<string>, nodes: seq<string>) returns (any: bool)
    ensures any <==> exists id :: id in nodes && id != "" && id in quarantined
  {
    for i := 0 to |nodes|
      invariant forall j :: 0 <= j < i ==> nodes[j] == "" || nodes[j] !in quarantined
    {
      if nodes[i] != "" && nodes[i] in quarantined {
        return true;
      }
    }
    return false;
  }

  method QuarantinedSet(r: Record) returns (q: set<string>)
    ensures forall id :: id in q <==> id in r.unhealthy && id != ""
  {
    q := {};
    for i := 0 to |r.unhealthy|
      invariant forall id :: id in q <==> id in r.unhealthy[..i] && id != ""
    {
      if r.unhealthy[i] != "" {
        q := q + {r.unhealthy[i]};
      }
    }
    assert r.unhealthy[..|r.unhealthy|] == r.unhealthy;
  }

  /** The members behind a list of replicas: strictly increasing positions, all of
      them offered, and every offered position below the bound. */
  ghost predicate Selects(r: Record, slots: seq<nat>, out: seq<Replica>, bound: nat) {
    && |slots| == |out|
    && (forall k :: 0 <= k < |slots| ==>
          slots[k] < bound && Offered(r, slots[k])
          && out[k] == Replica(Primary(r, slots[k]), EffectiveEndpoints(r)[slots[k]]))
    && (forall j, k :: 0 <= j < k < |slots| ==> slots[j] < slots[k])
    && (forall i: nat :: i < bound && Offered(r, i) ==> i in slots)
  }

  lemma SelectOne(r: Record, slots: seq<nat>, out: seq<Replica>, i: nat)
    requires Selects(r, slots, out, i) && Offered(r, i)
    ensures Selects(r, slots + [i], out + [Replica(Primary(r, i), EffectiveEndpoints(r)[i])], i + 1)
  {
    var slots' := slots + [i];
    forall j: nat | j < i + 1 && Offered(r, j)
      ensures j in slots'
    {
      if j == i {
        assert slots'[|slots|] == i;
      } else {
        assert j in slots;
      }
    }
  }

  lemma SelectNone(r: Record, slots: seq<nat>, out: seq<Replica>, i: nat)
    requires Selects(r, slots, out, i) && !Offered(r, i)
    ensures Selects(r, slots, out, i + 1)
  {
  }

  /** The policy sees exactly the members with an endpoint and no quarantined node,
      each under its primary's id, in member order. */
  method EligibleReplicas(r: Record) returns (out: seq<Replica>)
    ensures exists slots: seq<nat> :: Selects(r, slots, out, |EffectiveEndpoints(r)|)
  {
    var eps := EffectiveEndpoints(r);
    ghost var slots: seq<nat> := [];
    out := [];
    if |eps| == 0 {
      assert Selects(r, slots, out, 0);
      return;
    }
    var members := MemberIds(r);
    var quarantined := QuarantinedSet(r);
    for i := 0 to |eps|
      invariant Selects(r, slots, out, i)
    {
      if eps[i] == "" {
        SelectNone(r, slots, out, i);
        continue;
      }
      var nodes := [];
      if i < |members| {
        nodes := members[i];
      }
      var instanceId := "";
      if |nodes| > 0 {
        instanceId := nodes[0];
      }
      assert nodes == Nodes(r, i);
      var any := AnyQuarantined(quarantined, nodes);
      if any {
        SelectNone(r, slots, out, i);
        continue;
      }
      SelectOne(r, slots, out, i);
      out, slots := out + [Replica(instanceId, eps[i])], slots + [i];
    }
  }

  // ----- The health loop's snapshot ---------------------------------------

  /** Endpoint i, member by member, beside machine i of the flattened list. */
  function Snapshot(r: Record): seq<Probed> {
    var ids, eps := EffectiveInstanceIds(r), EffectiveEndpoints(r);
    seq(|eps|, i requires 0 <= i < |eps| =>
      var id := if i < |ids| then ids[i] else "";
      Probed(id, eps[i], id in r.unhealthy))
  }

  /** Entry i carries endpoint i, machine i of the flattened list, and whether that
      machine is quarantined. */
  lemma SnapshotTable(r: Record, i: nat)
    requires i < |EffectiveEndpoints(r)|
    ensures |Snapshot(r)| == |EffectiveEndpoints(r)|
    ensures var p := Snapshot(r)[i];
            && p.endpoint == EffectiveEndpoints(r)[i]
            && p.instanceId == (if i < |EffectiveInstanceIds(r)| then EffectiveInstanceIds(r)[i] else "")
            && (p.quarantined <==> p.instanceId in r.unhealthy)
  {
  }

  /** Each endpoint that is probed is filed under the member that serves it. Entries
      without an endpoint are never probed. */
  predicate PairedRight(r: Record) {
    forall i :: 0 <= i < |Snapshot(r)| && Snapshot(r)[i].endpoint != "" ==> Snapshot(r)[i].instanceId == Primary(r, i)
  }

  /** Machine ids are not empty and no id appears twice. */
  predicate ProperIds(reps: seq<Member>) {
    && (forall k :: 0 <= k < |Flatten(reps)| ==> Flatten(reps)[k] != "")
    && (forall j, k :: 0 <= j < k < |Flatten(reps)| ==> Flatten(reps)[j] != Flatten(reps)[k])
  }

  /** How many machines the members before i have. */
  function Before(reps: seq<Member>, i: nat): nat
    requires i <= |reps|
  {
    |Flatten(reps[..i])|
  }

  /** The count of machines is in step with the count of members at i: the members
      before it have i machines in all, or, if it has none itself, there are no
      more than i machines and no singular id to fall back to. */
  predicate InStep(r: Record, i: nat)
    requires i < |r.replicas|
  {
    if r.replicas[i].ids != [] then Before(r.replicas, i) == i
    else i >= |EffectiveInstanceIds(r)|
  }

  /** A member's machines sit in the flattened list after those of the members
      before it. */
  lemma FlattenAt(reps: seq<Member>, i: nat)
    requires i < |reps| && reps[i].ids != []
    ensures Before(reps, i) < |Flatten(reps)| && Flatten(reps)[Before(reps, i)] == reps[i].ids[0]
  {
    var rest := reps[i..];
    FlattenConcat(reps[..i], rest);
    assert reps[..i] + rest == reps;
    assert Flatten(rest) == rest[0].ids + Flatten(rest[1..]);
  }

  function At(ids: seq<string>, i: nat): string { if i < |ids| then ids[i] else "" }

  lemma EntryRightIff(r: Record, i: nat)
    requires ProperIds(r.replicas) && i < |r.replicas|
    ensures At(EffectiveInstanceIds(r), i) == Primary(r, i) <==> InStep(r, i)
  {
    var reps, f := r.replicas, Flatten(r.replicas);
    assert Nodes(r, i) == reps[i].ids;
    if reps[i].ids != [] {
      FlattenAt(reps, i);
      var b := Before(reps, i);
      if i < |f| && i != b {
        assert f[i] != f[b];
      }
    }
  }

  /** The snapshot files every probe under the right member exactly when the record
      has no members, or machines and members are in step at every member that
      has an endpoint. */
  lemma PairedRightIff(r: Record)
    requires ProperIds(r.replicas)
    ensures PairedRight(r)
       <==> forall i :: 0 <= i < |r.replicas| && r.replicas[i].endpoint != "" ==> InStep(r, i)
  {
    var snap := Snapshot(r);
    if r.replicas != [] {
      assert |snap| == |r.replicas|;
      forall i | 0 <= i < |r.replicas|
        ensures snap[i].endpoint == r.replicas[i].endpoint && (snap[i].instanceId == Primary(r, i) <==> InStep(r, i))
      {
        EntryRightIff(r, i);
      }
    }
  }

  /** In particular when every member has exactly one machine. */
  lemma OneMachineEachIsRight(r: Record)
    requires ProperIds(r.replicas) && forall i :: 0 <= i < |r.replicas| ==> |r.replicas[i].ids| == 1
    ensures PairedRight(r)
  {
    PairedRightIff(r);
    forall i | 0 <= i < |r.replicas|
      ensures InStep(r, i)
    {
      OneEachBefore(r.replicas[..i]);
    }
  }

  lemma {:induction false} OneEachBefore(reps: seq<Member>)
    requires forall i :: 0 <= i < |reps| ==> |reps[i].ids| == 1
    ensures |Flatten(reps)| == |reps|
  {
    if reps != [] {
      OneEachBefore(reps[1..]);
    }
  }
}
