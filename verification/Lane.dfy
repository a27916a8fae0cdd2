/** One priority lane of the scheduler (internal/scheduler/lane.go): bounded
    per-tenant FIFO sub-queues and the weighted lottery that picks a tenant. */
module Lane {
  import opened Common

  type Tenant = string

  const DEFAULT_TENANT_WEIGHT: int := 1

  type Weights = map<Tenant, int>

  /** Zero and negative table entries count as the default, so every tenant has
      at least one ticket. */
  function WeightFor(weights: Weights, t: Tenant): (w: int)
    ensures w > 0
    ensures t in weights && weights[t] > 0 ==> w == weights[t]
    ensures !(t in weights && weights[t] > 0) ==> w == DEFAULT_TENANT_WEIGHT == 1
  {
    if t in weights && weights[t] > 0 then weights[t] else DEFAULT_TENANT_WEIGHT
  }

  // ----- The lottery ------------------------------------------------------

  datatype Candidate = Candidate(id: Tenant, weight: int)

  function WeightOf(c: Candidate): int { c.weight }

  function Total(cs: seq<Candidate>): int { SumOf(cs, WeightOf) }

  predicate Positive(cs: seq<Candidate>) {
    forall i :: 0 <= i < |cs| ==> cs[i].weight > 0
  }

  /** Position of the candidate whose cumulative-weight interval holds r. */
  function PickIndex(cs: seq<Candidate>, r: int): (k: nat)
    requires Positive(cs) && 0 <= r < Total(cs)
    ensures k < |cs|
  {
    if r < cs[0].weight then 0 else 1 + PickIndex(cs[1..], r - cs[0].weight)
  }

  /** The tickets that select position k. */
  ghost function Tickets(cs: seq<Candidate>, k: nat): set<int>
    requires Positive(cs)
  {
    set r | 0 <= r < Total(cs) && PickIndex(cs, r) == k
  }

  lemma {:induction false} PickInterval(cs: seq<Candidate>, r: int, k: nat)
    requires Positive(cs) && 0 <= r < Total(cs) && k < |cs|
    ensures PickIndex(cs, r) == k <==> Total(cs[..k]) <= r < Total(cs[..k]) + cs[k].weight
    decreases |cs|
  {
    if k == 0 {
    } else {
      assert cs[..k][0] == cs[0] && cs[..k][1..] == cs[1..][..k - 1];
      SumNonNegative(cs[1..][..k - 1], WeightOf);
      if r >= cs[0].weight {
        PickInterval(cs[1..], r - cs[0].weight, k - 1);
      }
    }
  }

  lemma {:induction false} PrefixBound(cs: seq<Candidate>, k: nat)
    requires Positive(cs) && k < |cs|
    ensures 0 <= Total(cs[..k]) && Total(cs[..k]) + cs[k].weight <= Total(cs)
    decreases |cs|
  {
    SumNonNegative(cs[1..], WeightOf);
    if k > 0 {
      assert cs[..k][1..] == cs[1..][..k - 1];
      PrefixBound(cs[1..], k - 1);
    }
  }

  ghost function Range(lo: int, hi: int): (s: set<int>)
    requires lo <= hi
    ensures |s| == hi - lo && forall r :: r in s <==> lo <= r < hi
    decreases hi - lo
  {
    if lo == hi then {} else {lo} + Range(lo + 1, hi)
  }

  /** Exact fairness: of the Total tickets, a candidate wins exactly its own
      weight's worth. */
  lemma LotteryExact(cs: seq<Candidate>, k: nat)
    requires Positive(cs) && k < |cs|
    ensures |Tickets(cs, k)| == cs[k].weight
  {
    var lo := Total(cs[..k]);
    PrefixBound(cs, k);
    forall r | 0 <= r < Total(cs)
      ensures PickIndex(cs, r) == k <==> lo <= r < lo + cs[k].weight
    {
      PickInterval(cs, r, k);
    }
    assert Tickets(cs, k) == Range(lo, lo + cs[k].weight);
  }

  // ----- The lane ---------------------------------------------------------

  datatype PushResult = Accepted | QueueFull | Closed
  datatype PopResult<+T> = Item(item: T, from: Tenant) | Canceled | Drained

  predicate Distinct<T(==)>(s: seq<T>) {
    forall i, j :: 0 <= i < j < |s| ==> s[i] != s[j]
  }

  /** The tenants with something queued, in list order, with their weights. */
  function Candidates<T>(weights: Weights, tenants: seq<Tenant>, queues: map<Tenant, seq<T>>): seq<Candidate>
    requires forall i :: 0 <= i < |tenants| ==> tenants[i] in queues
  {
    if tenants == [] then [] else
    var n := |tenants| - 1;
    Candidates(weights, tenants[..n], queues)
    + if queues[tenants[n]] == [] then [] else [Candidate(tenants[n], WeightFor(weights, tenants[n]))]
  }

  predicate Queued<T(==)>(tenants: seq<Tenant>, queues: map<Tenant, seq<T>>, t: Tenant) {
    t in tenants && t in queues && queues[t] != []
  }

  predicate Has(cs: seq<Candidate>, t: Tenant) {
    exists k :: 0 <= k < |cs| && cs[k].id == t
  }

  predicate DistinctIds(cs: seq<Candidate>) {
    forall i, j :: 0 <= i < j < |cs| ==> cs[i].id != cs[j].id
  }

  predicate Weighted(weights: Weights, cs: seq<Candidate>) {
    forall k :: 0 <= k < |cs| ==> cs[k].weight == WeightFor(weights, cs[k].id)
  }

  lemma HasSnoc(before: seq<Candidate>, c: Candidate, t: Tenant)
    ensures Has(before + [c], t) <==> Has(before, t) || t == c.id
  {
    var cs := before + [c];
    assert cs[|before|] == c;
    if k :| 0 <= k < |before| && before[k].id == t {
      assert cs[k].id == t;
    }
  }

  /** A tenant is a candidate exactly when it has work queued. */
  lemma {:induction false} HasIffQueued<T>(weights: Weights, tenants: seq<Tenant>, queues: map<Tenant, seq<T>>, t: Tenant)
    requires forall i :: 0 <= i < |tenants| ==> tenants[i] in queues
    ensures Has(Candidates(weights, tenants, queues), t) <==> Queued(tenants, queues, t)
  {
    if tenants != [] {
      var n := |tenants| - 1;
      var before := Candidates(weights, tenants[..n], queues);
      HasIffQueued(weights, tenants[..n], queues, t);
      assert t in tenants <==> t == tenants[n] || t in tenants[..n];
      if queues[tenants[n]] == [] {
        assert Candidates(weights, tenants, queues) == before;
      } else {
        HasSnoc(before, Candidate(tenants[n], WeightFor(weights, tenants[n])), t);
      }
    }
  }

  /** Each candidate appears once, at its own weight. */
  lemma {:induction false} CandidatesAre<T>(weights: Weights, tenants: seq<Tenant>, queues: map<Tenant, seq<T>>)
    requires Distinct(tenants) && forall i :: 0 <= i < |tenants| ==> tenants[i] in queues
    ensures var cs := Candidates(weights, tenants, queues);
            Weighted(weights, cs) && Positive(cs) && DistinctIds(cs)
  {
    if tenants != [] {
      var n := |tenants| - 1;
      CandidatesAre(weights, tenants[..n], queues);
      HasIffQueued(weights, tenants[..n], queues, tenants[n]);
      assert tenants[n] !in tenants[..n];
    }
  }

  /** The tickets that hand the turn to tenant t. */
  ghost function Won(cs: seq<Candidate>, t: Tenant): set<int>
    requires Positive(cs)
  {
    set r | 0 <= r < Total(cs) && cs[PickIndex(cs, r)].id == t
  }

  lemma WonExact(cs: seq<Candidate>, k: nat)
    requires Positive(cs) && DistinctIds(cs) && k < |cs|
    ensures |Won(cs, cs[k].id)| == cs[k].weight
  {
    forall r | 0 <= r < Total(cs)
      ensures cs[PickIndex(cs, r)].id == cs[k].id <==> PickIndex(cs, r) == k
    {
      var j := PickIndex(cs, r);
      assert j < k ==> cs[j].id != cs[k].id;
      assert k < j ==> cs[k].id != cs[j].id;
    }
    assert Won(cs, cs[k].id) == Tickets(cs, k);
    LotteryExact(cs, k);
  }

  /** Every tenant with work queued wins exactly WeightFor(tenant) of the
      tickets, and a tenant without work wins none. */
  lemma FairShare<T>(weights: Weights, tenants: seq<Tenant>, queues: map<Tenant, seq<T>>, t: Tenant)
    requires Distinct(tenants) && forall i :: 0 <= i < |tenants| ==> tenants[i] in queues
    ensures var cs := Candidates(weights, tenants, queues);
            && Positive(cs)
            && |Won(cs, t)| == if Queued(tenants, queues, t) then WeightFor(weights, t) else 0
  {
    var cs := Candidates(weights, tenants, queues);
    CandidatesAre(weights, tenants, queues);
    HasIffQueued(weights, tenants, queues, t);
    if Queued(tenants, queues, t) {
      assert Has(cs, t);
      var k :| 0 <= k < |cs| && cs[k].id == t;
      WonExact(cs, k);
    } else {
      assert !Has(cs, t);
      assert Won(cs, t) == {};
    }
  }

  class LaneState<T> {
    const weights: Weights
    const perTenantCap: nat
    var queues: map<Tenant, seq<T>>
    var tenants: seq<Tenant>
    var closed: bool

    ghost predicate Valid()
      reads this
    {
      && perTenantCap > 0 && Distinct(tenants)
      && (forall t :: t in queues <==> t in tenants)
      && forall t :: t in queues ==> |queues[t]| <= perTenantCap
    }

    constructor (weights: Weights, perTenantCap: nat)
      requires perTenantCap > 0
      ensures Valid() && queues == map[] && !closed
      ensures this.weights == weights && this.perTenantCap == perTenantCap
    {
      this.weights, this.perTenantCap := weights, perTenantCap;
      queues, tenants, closed := map[], [], false;
    }

    /** push, when nothing else runs between its two critical sections. */
    method Push(t: Tenant, e: T) returns (r: PushResult)
      requires Valid()
      modifies this`queues, this`tenants
      ensures Valid()
      ensures r == if closed then Closed
                   else if t in old(queues) && |old(queues)[t]| >= perTenantCap then QueueFull
                   else Accepted
      ensures var before := if t in old(queues) then old(queues)[t] else [];
              queues == if r == Closed then old(queues)
                        else old(queues)[t := if r == Accepted then before + [e] else before]
    {
      if closed {
        return Closed;
      }
      if t !in queues {
        queues := queues[t := []];
        tenants := tenants + [t];
      }
      if |queues[t]| >= perTenantCap {
        return QueueFull;
      }
      queues := queues[t := queues[t] + [e]];
      return Accepted;
    }

    /** close: idempotent, and keeps what is queued. */
    method Close()
      requires Valid()
      modifies this`closed
      ensures Valid() && closed
    {
      closed := true;
    }

    /** The scan under the lane lock: who has work, and how many tickets. */
    method Snapshot() returns (cs: seq<Candidate>, total: int, drained: bool)
      requires Valid()
      ensures cs == Candidates(weights, tenants, queues) && total == Total(cs)
      ensures drained <==> closed && cs == []
    {
      cs, total, drained := [], 0, closed;
      for i := 0 to |tenants|
        invariant cs == Candidates(weights, tenants[..i], queues) && total == Total(cs)
        invariant drained <==> closed && cs == []
      {
        assert tenants[..i + 1][..i] == tenants[..i];
        var t := tenants[i];
        if queues[t] != [] {
          drained := false;
          var c := Candidate(t, WeightFor(weights, t));
          TotalSnoc(cs, c);
          cs := cs + [c];
          total := total + c.weight;
        }
      }
      assert tenants[..|tenants|] == tenants;
    }

    /** tryPop with a drawn ticket, when no other worker runs in between. */
    method TryPop(draw: int -> int) returns (r: PopResult<T>)
      requires Valid()
      requires forall n :: n > 0 ==> 0 <= draw(n) < n
      modifies this`queues
      ensures Valid()
      ensures var cs := Candidates(weights, tenants, old(queues));
              if cs == [] then r == (if closed then Drained else Canceled) && queues == old(queues)
              else
                && Positive(cs) && Total(cs) > 0 && r.Item?
                && r.from == cs[PickIndex(cs, draw(Total(cs)))].id
                && r.from in old(queues) && old(queues)[r.from] != []
                && r.item == old(queues)[r.from][0]
                && queues == old(queues)[r.from := old(queues)[r.from][1..]]
    {
      var cs, total, drained := Snapshot();
      CandidatesAre(weights, tenants, queues);
      if |cs| == 0 {
        return if drained then Drained else Canceled;
      }
      SumNonNegative(cs, WeightOf);
      SumAtLeast(cs, 0, WeightOf);
      var k := Choose(cs, draw(total));
      var t := cs[k].id;
      HasIffQueued(weights, tenants, queues, t);
      r := Item(queues[t][0], t);
      queues := queues[t := queues[t][1..]];
    }
  }

  lemma {:induction false} TotalSnoc(cs: seq<Candidate>, c: Candidate)
    ensures Total(cs + [c]) == Total(cs) + c.weight
  {
    if cs == [] {
      assert cs + [c] == [c];
    } else {
      assert (cs + [c])[1..] == cs[1..] + [c];
      TotalSnoc(cs[1..], c);
    }
  }

  /** The cumulative-weight loop. */
  method Choose(cs: seq<Candidate>, r: int) returns (k: nat)
    requires Positive(cs) && 0 <= r < Total(cs)
    ensures k == PickIndex(cs, r)
  {
    var cumulative := 0;
    k := 0;
    assert cs[..0] == [] && cs[..|cs|] == cs;
    while k < |cs|
      invariant k <= |cs|
      invariant cumulative == Total(cs[..k]) <= r
    {
      assert cs[..k + 1] == cs[..k] + [cs[k]];
      TotalSnoc(cs[..k], cs[k]);
      cumulative := cumulative + cs[k].weight;
      if r < cumulative {
        PickInterval(cs, r, k);
        return;
      }
      k := k + 1;
    }
    assert false;
  }
}
