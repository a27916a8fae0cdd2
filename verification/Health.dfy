/** Health hysteresis (internal/healthcheck/runner.go), the quarantine list it
    drives (Quarantine and Restore in internal/provisioners/service.go) and its
    effect on routing. */
module Health {
  import opened Common
  import opened Fanout
  import opened Router

  // ----- The quarantine list ----------------------------------------------

  predicate NoDuplicates(l: seq<string>) {
    forall i, j :: 0 <= i < j < |l| ==> l[i] != l[j]
  }

  function Quarantined(l: seq<string>, id: string): seq<string> {
    if id == "" || id in l then l else l + [id]
  }

  /** Deletes the first occurrence only. */
  function Without(l: seq<string>, id: string): seq<string> {
    if l == [] then []
    else if l[0] == id then l[1..]
    else [l[0]] + Without(l[1..], id)
  }

  function Restored(l: seq<string>, id: string): seq<string> {
    if id == "" then l else Without(l, id)
  }

  /** The unhealthy list of a deployment record, which the record may have lost to a
      concurrent destroy. */
  class QuarantineList {
    var ids: seq<string>

    constructor ()
      ensures ids == []
    {
      ids := [];
    }

    method Quarantine(id: string)
      modifies this
      ensures ids == Quarantined(old(ids), id)
    {
      if id == "" {
        return;
      }
      for i := 0 to |ids|
        invariant ids == old(ids)
        invariant forall j :: 0 <= j < i ==> ids[j] != id
      {
        if ids[i] == id {
          return;
        }
      }
      ids := ids + [id];
    }

    method Restore(id: string)
      modifies this
      ensures ids == Restored(old(ids), id)
    {
      if id == "" {
        return;
      }
      WithoutAbsent(ids, id);
      for i := 0 to |ids|
        invariant ids == old(ids)
        invariant forall j :: 0 <= j < i ==> ids[j] != id
      {
        if ids[i] == id {
          WithoutAt(ids, id, i);
          ids := ids[..i] + ids[i + 1..];
          return;
        }
      }
    }
  }

  lemma {:induction false} WithoutAt(l: seq<string>, id: string, i: nat)
    requires i < |l| && l[i] == id && forall j :: 0 <= j < i ==> l[j] != id
    ensures Without(l, id) == l[..i] + l[i + 1..]
  {
    if i > 0 {
      WithoutAt(l[1..], id, i - 1);
      assert l[..i] + l[i + 1..] == [l[0]] + (l[1..][..i - 1] + l[1..][i..]);
    }
  }

  lemma {:induction false} WithoutAbsent(l: seq<string>, id: string)
    ensures id !in l ==> Without(l, id) == l
  {
    if l != [] {
      WithoutAbsent(l[1..], id);
    }
  }

  /** On a duplicate-free list, deleting the first occurrence deletes the id, and
      nothing else. */
  lemma {:induction false} WithoutRemoves(l: seq<string>, id: string)
    requires NoDuplicates(l)
    ensures NoDuplicates(Without(l, id))
    ensures forall x :: x in Without(l, id) <==> x in l && x != id
  {
    if l != [] {
      var t := l[1..];
      WithoutRemoves(t, id);
      assert forall i :: 1 <= i < |l| ==> l[i] == t[i - 1];
      assert l[0] !in t;
      if l[0] == id {
        assert Without(l, id) == t;
        assert forall x :: x in t <==> x in l && x != id;
      } else {
        HeadApart(l[0], Without(t, id));
        assert forall x :: x in Without(l, id) <==> x == l[0] || x in Without(t, id);
      }
    }
  }

  lemma HeadApart(x: string, t: seq<string>)
    requires x !in t && NoDuplicates(t)
    ensures NoDuplicates([x] + t)
  {
  }

  /** On any other list it does not: the id stays exactly when it was there twice. */
  lemma {:induction false} WithoutRemovesIff(l: seq<string>, id: string)
    ensures multiset(Without(l, id))[id] == if id in l then multiset(l)[id] - 1 else 0
    ensures id in Without(l, id) <==> multiset(l)[id] > 1
  {
    if l != [] {
      var t := l[1..];
      assert l == [l[0]] + t;
      assert multiset(l)[id] == multiset([l[0]])[id] + multiset(t)[id];
      WithoutRemovesIff(t, id);
      if l[0] != id {
        assert multiset([l[0]] + Without(t, id))[id] == multiset(Without(t, id))[id];
      }
    }
  }

  lemma QuarantinedAdds(l: seq<string>, id: string)
    requires NoDuplicates(l)
    ensures NoDuplicates(Quarantined(l, id))
    ensures forall x :: x in Quarantined(l, id) <==> x in l || (x == id && id != "")
  {
  }

  lemma RestoredRemoves(l: seq<string>, id: string)
    requires NoDuplicates(l)
    ensures NoDuplicates(Restored(l, id))
    ensures forall x :: x in Restored(l, id) <==> x in l && (x != id || id == "")
  {
    WithoutRemoves(l, id);
  }

  // ----- One probe --------------------------------------------------------

  datatype Streak = Streak(fails: nat, passes: nat)

  datatype Decision = Nothing | Quarantine | Restore

  datatype Config = Config(failK: int, passK: int)

  predicate Configured(c: Config) { c.failK >= 1 && c.passK >= 1 }

  /** Recent completions veto a quarantine; not knowing of any does not. */
  predicate ActivityVeto(window: int, since: Option<int>) {
    window > 0 && since.Some? && since.value <= window
  }

  function Counted(s: Streak, healthy: bool): Streak {
    if healthy then Streak(0, s.passes + 1) else Streak(s.fails + 1, 0)
  }

  /** Reads the counters after the update. */
  function Decide(c: Config, s: Streak, quarantined: bool, vetoed: bool): Decision {
    if !quarantined && s.fails >= c.failK then if vetoed then Nothing else Quarantine
    else if quarantined && s.passes >= c.passK then Restore
    else Nothing
  }

  /** The runner's counters, one pair per probed machine. */
  class Runner {
    var streaks: map<string, Streak>
    const cfg: Config

    constructor (c: Config)
      ensures streaks == map[] && Configured(cfg)
      ensures cfg == Config(if c.failK <= 0 then 3 else c.failK, if c.passK <= 0 then 3 else c.passK)
    {
      streaks := map[];
      cfg := Config(if c.failK <= 0 then 3 else c.failK, if c.passK <= 0 then 3 else c.passK);
    }

    method Probe(id: string, healthy: bool, quarantined: bool, window: int, since: Option<int>) returns (d: Decision)
      modifies this`streaks
      ensures streaks == old(streaks)[id := Counted(StreakOf(old(streaks), id), healthy)]
      ensures d == Decide(cfg, streaks[id], quarantined, ActivityVeto(window, since))
      ensures var was := StreakOf(old(streaks), id);
              && streaks[id] == (if healthy then Streak(0, was.passes + 1) else Streak(was.fails + 1, 0))
              && (d == Decision.Restore <==> quarantined && streaks[id].passes >= cfg.passK)
              && (d == Decision.Quarantine <==>
                    !quarantined && streaks[id].fails >= cfg.failK
                    && (window <= 0 || since == None || since.value > window))
    {
      if id !in streaks {
        streaks := streaks[id := Streak(0, 0)];
      }
      var s := streaks[id];
      if healthy {
        s := s.(fails := 0);
        s := s.(passes := s.passes + 1);
      } else {
        s := s.(passes := 0);
        s := s.(fails := s.fails + 1);
      }
      streaks := streaks[id := s];
      if !quarantined && s.fails >= cfg.failK {
        if window > 0 && since.Some? && since.value <= window {
          return Nothing;
        }
        return Decision.Quarantine;
      } else if quarantined && s.passes >= cfg.passK {
        return Decision.Restore;
      }
      return Nothing;
    }
  }

  function StreakOf(m: map<string, Streak>, id: string): Streak {
    if id in m then m[id] else Streak(0, 0)
  }

  // ----- Runs -------------------------------------------------------------

  /** pending holds the snapshot entries the current tick has still to probe. */
  datatype State = State(record: Record, streaks: map<string, Streak>, snap: seq<Probed>, pending: set<nat>)

  /** stored says whether the state file could be written. */
  datatype Action =
    | Tick
    | Probe(k: nat, healthy: bool, vetoed: bool, stored: bool)
    | Drain(id: string)

  predicate Enabled(s: State, a: Action) {
    match a
    case Tick => s.pending == {}
    case Probe(k, _, _, _) => k in s.pending && k < |s.snap|
    case Drain(_) => true
  }

  function Entries(snap: seq<Probed>): set<nat> {
    set k: nat | k < |snap| && snap[k].endpoint != ""
  }

  function Enact(l: seq<string>, id: string, d: Decision): seq<string> {
    match d
    case Nothing => l
    case Quarantine => Quarantined(l, id)
    case Restore => Restored(l, id)
  }

  function Step(c: Config, s: State, a: Action): State {
    if !Enabled(s, a) then s else
    match a
    case Tick => s.(snap := Snapshot(s.record), pending := Entries(Snapshot(s.record)))
    case Probe(k, healthy, vetoed, stored) =>
      var id := s.snap[k].instanceId;
      var streak := Counted(StreakOf(s.streaks, id), healthy);
      var d := if stored then Decide(c, streak, s.snap[k].quarantined, vetoed) else Nothing;
      s.(streaks := s.streaks[id := streak], pending := s.pending - {k},
         record := s.record.(unhealthy := Enact(s.record.unhealthy, id, d)))
    case Drain(id) => s.(record := s.record.(unhealthy := Quarantined(s.record.unhealthy, id)))
  }

  function Exec(c: Config, s: State, run: seq<Action>): State
    decreases |run|
  {
    if run == [] then s else Step(c, Exec(c, s, run[..|run| - 1]), run[|run| - 1])
  }

  /** A deployment that has just come up. */
  function Init(r: Record): State { State(r.(unhealthy := []), map[], [], {}) }

  /** The outcomes of the probes filed under a machine, in order. */
  function Probes(c: Config, s: State, run: seq<Action>, id: string): seq<bool>
    decreases |run|
  {
    if run == [] then []
    else
      var n := |run| - 1;
      Probes(c, s, run[..n], id) + Outcome(Exec(c, s, run[..n]), run[n], id)
  }

  function Outcome(s: State, a: Action, id: string): seq<bool> {
    if a.Probe? && Enabled(s, a) && s.snap[a.k].instanceId == id then [a.healthy] else []
  }

  /** The length of the run of b at the end. */
  function Trailing(h: seq<bool>, b: bool): nat {
    if h == [] || h[|h| - 1] != b then 0 else 1 + Trailing(h[..|h| - 1], b)
  }

  /** The last k outcomes were all b. */
  predicate Straight(h: seq<bool>, k: int, b: bool) {
    k <= |h| && forall i :: 0 <= i && |h| - k <= i < |h| ==> h[i] == b
  }

  lemma {:induction false} TrailingIsStraight(h: seq<bool>, k: nat, b: bool)
    ensures Trailing(h, b) >= k <==> Straight(h, k, b)
  {
    if h != [] && k > 0 {
      var n := |h| - 1;
      if h[n] == b {
        TrailingIsStraight(h[..n], k - 1, b);
        assert forall i :: 0 <= i < n ==> h[i] == h[..n][i];
        if Straight(h[..n], k - 1, b) {
          assert forall i :: 0 <= i && |h| - k <= i < n ==> h[..n][i] == b;
        }
      }
    }
  }

  lemma TrailingAppend(h: seq<bool>, x: bool)
    ensures Trailing(h + [x], x) == Trailing(h, x) + 1
    ensures Trailing(h + [x], !x) == 0
  {
    assert (h + [x])[..|h|] == h;
  }

  /** The counters are the trailing failure and pass run lengths of the machine's
      whole probe history. */
  lemma {:induction false} CountersAreTrailing(c: Config, r: Record, run: seq<Action>, id: string)
    ensures var s, h := Exec(c, Init(r), run), Probes(c, Init(r), run, id);
            StreakOf(s.streaks, id) == Streak(Trailing(h, false), Trailing(h, true))
    decreases |run|
  {
    if run != [] {
      var n := |run| - 1;
      CountersAreTrailing(c, r, run[..n], id);
      var s, h := Exec(c, Init(r), run[..n]), Probes(c, Init(r), run[..n], id);
      if Outcome(s, run[n], id) == [] {
        assert Probes(c, Init(r), run, id) == h;
      } else {
        TrailingAppend(h, run[n].healthy);
      }
    }
  }

  lemma {:induction false} ListStaysDuplicateFree(c: Config, r: Record, run: seq<Action>)
    ensures NoDuplicates(Exec(c, Init(r), run).record.unhealthy)
    decreases |run|
  {
    if run != [] {
      var n := |run| - 1;
      ListStaysDuplicateFree(c, r, run[..n]);
      StepKeepsList(c, Exec(c, Init(r), run[..n]), run[n]);
    }
  }

  lemma StepKeepsList(c: Config, s: State, a: Action)
    requires NoDuplicates(s.record.unhealthy)
    ensures NoDuplicates(Step(c, s, a).record.unhealthy)
  {
    if Enabled(s, a) && !a.Tick? {
      var l, id := s.record.unhealthy, if a.Probe? then s.snap[a.k].instanceId else a.id;
      QuarantinedAdds(l, id);
      RestoredRemoves(l, id);
    }
  }

  /** A tick takes a snapshot and is due to probe exactly its entries with an endpoint;
      no other tick begins before all have been probed. */
  lemma TickTable(c: Config, s: State)
    ensures s.pending == {} ==>
              var s' := Step(c, s, Tick);
              && s' == s.(snap := Snapshot(s.record), pending := s'.pending)
              && forall k: nat :: k in s'.pending <==> k < |s'.snap| && s'.snap[k].endpoint != ""
    ensures s.pending != {} ==> Step(c, s, Tick) == s
  {
  }

  // ----- Why a machine enters and leaves the list -------------------------

  /** The last K probes failed and nothing vetoes. */
  predicate Quarantines(c: Config, r: Record, run: seq<Action>, n: nat, id: string) {
    n < |run| && run[n].Probe? && run[n].stored && !run[n].vetoed && Enabled(Exec(c, Init(r), run[..n]), run[n])
    && Exec(c, Init(r), run[..n]).snap[run[n].k].instanceId == id
    && !Exec(c, Init(r), run[..n]).snap[run[n].k].quarantined
    && id != "" && Straight(Probes(c, Init(r), run[..n], id) + [run[n].healthy], c.failK, false)
  }

  predicate Restores(c: Config, r: Record, run: seq<Action>, n: nat, id: string) {
    n < |run| && run[n].Probe? && run[n].stored && Enabled(Exec(c, Init(r), run[..n]), run[n])
    && Exec(c, Init(r), run[..n]).snap[run[n].k].instanceId == id
    && Exec(c, Init(r), run[..n]).snap[run[n].k].quarantined
    && id != "" && Straight(Probes(c, Init(r), run[..n], id) + [run[n].healthy], c.passK, true)
  }

  predicate Drains(run: seq<Action>, n: nat, id: string) { n < |run| && run[n] == Drain(id) && id != "" }

  /** The decision, in terms of the history. */
  lemma DecisionFromHistory(c: Config, r: Record, run: seq<Action>, id: string, healthy: bool, q: bool, vetoed: bool)
    requires Configured(c)
    ensures var h := Probes(c, Init(r), run, id) + [healthy];
            var d := Decide(c, Counted(StreakOf(Exec(c, Init(r), run).streaks, id), healthy), q, vetoed);
            && (d == Decision.Quarantine <==> !q && !vetoed && Straight(h, c.failK, false))
            && (d == Decision.Restore <==> q && Straight(h, c.passK, true))
  {
    CountersAreTrailing(c, r, run, id);
    var h := Probes(c, Init(r), run, id);
    CountedIsTrailing(h, healthy);
    DecideByHistory(c, h + [healthy], q, vetoed);
  }

  function StreakAt(h: seq<bool>): Streak { Streak(Trailing(h, false), Trailing(h, true)) }

  lemma CountedIsTrailing(h: seq<bool>, healthy: bool)
    ensures Counted(StreakAt(h), healthy) == StreakAt(h + [healthy])
  {
    TrailingAppend(h, healthy);
  }

  lemma DecideByHistory(c: Config, h: seq<bool>, q: bool, vetoed: bool)
    requires Configured(c) && h != []
    ensures Decide(c, StreakAt(h), q, vetoed) == Decision.Quarantine <==> !q && !vetoed && Straight(h, c.failK, false)
    ensures Decide(c, StreakAt(h), q, vetoed) == Decision.Restore <==> q && Straight(h, c.passK, true)
  {
    TrailingIsStraight(h, c.failK, false);
    TrailingIsStraight(h, c.passK, true);
  }

  /** Membership after one more action: a machine is quarantined by K straight
      failures without a veto or by a drain, restored by K straight passes, and
      otherwise stays where it was. */
  lemma MembershipStep(c: Config, r: Record, run: seq<Action>, id: string)
    requires Configured(c) && run != []
    ensures var n := |run| - 1;
            id in Exec(c, Init(r), run).record.unhealthy
            <==> Quarantines(c, r, run, n, id) || Drains(run, n, id)
                 || (id in Exec(c, Init(r), run[..n]).record.unhealthy && !Restores(c, r, run, n, id))
  {
    var n := |run| - 1;
    var s, a := Exec(c, Init(r), run[..n]), run[n];
    ListStaysDuplicateFree(c, r, run[..n]);
    var l := s.record.unhealthy;
    if Enabled(s, a) {
      match a
      case Tick =>
      case Drain(x) => QuarantinedAdds(l, x);
      case Probe(k, healthy, vetoed, _) =>
        var x := s.snap[k].instanceId;
        QuarantinedAdds(l, x);
        RestoredRemoves(l, x);
        DecisionFromHistory(c, r, run[..n], x, healthy, s.snap[k].quarantined, vetoed);
    }
  }

  /** Action n put the machine out and none after it put it back. */
  ghost predicate OutSince(c: Config, r: Record, run: seq<Action>, n: nat, id: string) {
    (Quarantines(c, r, run, n, id) || Drains(run, n, id))
    && forall m: nat :: n < m < |run| ==> !Restores(c, r, run, m, id)
  }

  ghost predicate Out(c: Config, r: Record, run: seq<Action>, id: string) {
    exists n: nat :: OutSince(c, r, run, n, id)
  }

  lemma SamePrefix(c: Config, r: Record, run: seq<Action>, n: nat, id: string)
    requires run != [] && n < |run| - 1
    ensures Quarantines(c, r, run, n, id) <==> Quarantines(c, r, run[..|run| - 1], n, id)
    ensures Restores(c, r, run, n, id) <==> Restores(c, r, run[..|run| - 1], n, id)
    ensures Drains(run, n, id) <==> Drains(run[..|run| - 1], n, id)
  {
    assert run[..|run| - 1][..n] == run[..n];
  }

  /** Over whole runs: a machine is quarantined exactly when something put it out,
      K straight failures or a drain, and no K straight passes have come since. */
  lemma {:induction false} QuarantinedIff(c: Config, r: Record, run: seq<Action>, id: string)
    requires Configured(c)
    ensures id in Exec(c, Init(r), run).record.unhealthy <==> Out(c, r, run, id)
    decreases |run|
  {
    if run == [] {
      return;
    }
    var last := |run| - 1;
    var run' := run[..last];
    QuarantinedIff(c, r, run', id);
    MembershipStep(c, r, run, id);
    if id in Exec(c, Init(r), run).record.unhealthy {
      if Quarantines(c, r, run, last, id) || Drains(run, last, id) {
        assert OutSince(c, r, run, last, id);
      } else {
        var n: nat :| OutSince(c, r, run', n, id);
        OutSinceExtends(c, r, run, n, id);
      }
    }
    if n: nat :| OutSince(c, r, run, n, id) {
      if n < last {
        OutSinceShrinks(c, r, run, n, id);
      }
    }
  }

  lemma OutSinceExtends(c: Config, r: Record, run: seq<Action>, n: nat, id: string)
    requires run != [] && OutSince(c, r, run[..|run| - 1], n, id) && !Restores(c, r, run, |run| - 1, id)
    ensures OutSince(c, r, run, n, id)
  {
    SamePrefix(c, r, run, n, id);
    forall m: nat | n < m < |run|
      ensures !Restores(c, r, run, m, id)
    {
      if m < |run| - 1 {
        SamePrefix(c, r, run, m, id);
      }
    }
  }

  lemma OutSinceShrinks(c: Config, r: Record, run: seq<Action>, n: nat, id: string)
    requires run != [] && n < |run| - 1 && OutSince(c, r, run, n, id)
    ensures OutSince(c, r, run[..|run| - 1], n, id) && !Restores(c, r, run, |run| - 1, id)
  {
    SamePrefix(c, r, run, n, id);
    var run' := run[..|run| - 1];
    forall m: nat | n < m < |run'|
      ensures !Restores(c, r, run', m, id)
    {
      SamePrefix(c, r, run, m, id);
    }
  }

  // ----- Routing ----------------------------------------------------------

  lemma {:induction false} RunsKeepMembers(c: Config, r: Record, run: seq<Action>)
    ensures var e := Exec(c, Init(r), run).record;
            e.(unhealthy := r.unhealthy) == r
    decreases |run|
  {
    if run != [] {
      RunsKeepMembers(c, r, run[..|run| - 1]);
    }
  }

  /** From probes to traffic: after any run the router offers a member exactly when
      it has an endpoint and nothing that put one of its machines out is still in
      force. */
  lemma OfferedIff(c: Config, r: Record, run: seq<Action>, i: nat)
    requires Configured(c)
    ensures Offered(Exec(c, Init(r), run).record, i)
       <==> i < |EffectiveEndpoints(r)| && EffectiveEndpoints(r)[i] != ""
            && forall id :: id in Nodes(r, i) && id != "" ==> !Out(c, r, run, id)
  {
    RunsKeepMembers(c, r, run);
    var e := Exec(c, Init(r), run).record;
    assert EffectiveEndpoints(e) == EffectiveEndpoints(r) && Nodes(e, i) == Nodes(r, i);
    forall id | id in Nodes(r, i)
      ensures id in e.unhealthy <==> Out(c, r, run, id)
    {
      QuarantinedIff(c, r, run, id);
    }
  }

  // ----- Two claims that fail ---------------------------------------------

  /** A drain shares the list with the health loop. After draining a probed machine
      between ticks, its next probe puts it back exactly when it passes and the
      passes, counted from before the drain, reach the threshold: for a machine
      that was healthy all along, at once. */
  lemma DrainUndoneIff(c: Config, s: State, id: string, k: nat, healthy: bool)
    requires Configured(c) && NoDuplicates(s.record.unhealthy) && s.pending == {} && id != ""
    requires k < |Snapshot(s.record)| && Snapshot(s.record)[k].instanceId == id && Snapshot(s.record)[k].endpoint != ""
    ensures var t := Exec(c, s, [Drain(id), Tick, Probe(k, healthy, false, true)]);
            id !in t.record.unhealthy <==> healthy && StreakOf(s.streaks, id).passes + 1 >= c.passK
  {
    var run := [Drain(id), Tick, Probe(k, healthy, false, true)];
    assert run[..2] == [Drain(id), Tick] && run[..2][..1] == [Drain(id)] && run[..2][..1][..0] == [];
    var s1 := Step(c, s, Drain(id));
    QuarantinedAdds(s.record.unhealthy, id);
    assert Exec(c, s, [Drain(id)]) == s1;
    var s2 := Step(c, s1, Tick);
    assert Exec(c, s, run[..2]) == s2;
    assert s2.snap[k] == Probed(id, Snapshot(s.record)[k].endpoint, true);
    RestoredRemoves(s1.record.unhealthy, id);
  }

  /** Two members, the first spanning two machines: when the second one's endpoint
      fails K probes, the first member leaves the rotation and the second stays. */
  lemma WrongMemberLeaves(c: Config, a: string, b: string, d: string, e0: string, e1: string, streaks: map<string, Streak>)
    requires Configured(c) && a != "" && b != "" && d != "" && a != b && a != d && b != d && e0 != "" && e1 != ""
    requires StreakOf(streaks, b).fails + 1 >= c.failK
    ensures var r := Record([Member([a, b], e0), Member([d], e1)], "", "", []);
            var t := Exec(c, State(r, streaks, [], {}), [Tick, Probe(1, false, false, true)]);
            Offered(r, 0) && Offered(r, 1) && !Offered(t.record, 0) && Offered(t.record, 1)
  {
    var r := Record([Member([a, b], e0), Member([d], e1)], "", "", []);
    var s := State(r, streaks, [], {});
    var run := [Tick, Probe(1, false, false, true)];
    assert run[..1] == [Tick] && run[..1][..0] == [];
    assert Flatten(r.replicas[1..]) == [d] + Flatten([]);
    assert Flatten(r.replicas) == [a, b] + [d];
    var s1 := Step(c, s, Tick);
    assert Exec(c, s, run[..1]) == s1;
    assert s1.snap[1] == Probed(b, e1, false);
    var t := Step(c, s1, run[1]);
    assert t.record.unhealthy == [b];
    assert Nodes(t.record, 0) == [a, b] && Nodes(t.record, 1) == [d];
    assert b in Nodes(t.record, 0);
  }
}
