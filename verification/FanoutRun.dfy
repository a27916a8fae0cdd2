/** The fan-out as it runs (provisionSlots, launchMember, launchReplica and
    applyAggregateState in internal/provisioners/fanout.go): one goroutine per
    node reports into the deployment record while it works, multi-node members
    collect their own nodes first, and the aggregator reads one result per slot. */
module FanoutRun {
  import opened Common
  import opened Fanout

  /** A node's deploy: not launched, in progress, or returned. */
  datatype Node = Idle | Working | Done(ok: bool)

  /** One member being provisioned. A member of several nodes reads their results
      from its own channel `per` before it answers on the shared one. */
  datatype Slot = Slot(
    ids: seq<string>, nodes: seq<Node>, launched: bool,
    per: seq<bool>, read: nat, failures: nat, sent: bool)

  datatype SlotResult = SlotResult(slot: nat, ok: bool)

  datatype State = State(
    dep: Deployment, slots: seq<Slot>, next: nat,
    results: seq<SlotResult>, received: seq<SlotResult>, successes: nat, aggregated: bool)

  datatype Action =
    | Launch(keyOk: bool)
    | Emit(slot: nat, node: nat, u: Update)
    | Return(slot: nat, node: nat, ok: bool)
    | Collect(slot: nat)
    | Send(slot: nat)
    | Receive
    | Stamp

  // ----- Steps ------------------------------------------------------------

  /** The loop of provisionSlots on one slot: a member that was not placed or
      whose key cannot be loaded answers at once with an error. */
  function Launched(sl: Slot, keyOk: bool): Slot {
    if sl.ids == [] || !keyOk then sl.(sent := true)
    else sl.(launched := true, nodes := seq(|sl.nodes|, i => Working))
  }

  /** One node's deploy returns. A one-node member answers directly. */
  function Returned(sl: Slot, n: nat, ok: bool): Slot
    requires n < |sl.nodes|
  {
    var sl' := sl.(nodes := sl.nodes[n := Done(ok)]);
    if |sl.nodes| == 1 then sl'.(sent := true) else sl'.(per := sl.per + [ok])
  }

  function Collected(sl: Slot): Slot
    requires sl.per != []
  {
    sl.(per := sl.per[1..], read := sl.read + 1, failures := sl.failures + if sl.per[0] then 0 else 1)
  }

  predicate Busy(s: State, i: nat, n: nat) {
    i < |s.slots| && n < |s.slots[i].nodes| && n < |s.slots[i].ids| && s.slots[i].nodes[n] == Working
  }

  predicate Enabled(s: State, a: Action) {
    match a
    case Launch(_) => s.next < |s.slots|
    case Emit(i, n, _) => Busy(s, i, n)
    case Return(i, n, _) => Busy(s, i, n)
    case Collect(i) => i < |s.slots| && s.slots[i].launched && s.slots[i].per != []
    case Send(i) =>
      i < |s.slots| && s.slots[i].launched && !s.slots[i].sent
      && |s.slots[i].nodes| > 1 && s.slots[i].read == |s.slots[i].nodes|
    case Receive => s.next == |s.slots| && |s.received| < |s.slots| && s.results != []
    case Stamp => s.next == |s.slots| == |s.received| && !s.aggregated
  }

  /** A disabled action leaves the state as it is. */
  function Step(s: State, a: Action): State {
    if !Enabled(s, a) then s else
    match a
    case Launch(keyOk) =>
      var sl := Launched(s.slots[s.next], keyOk);
      s.(slots := s.slots[s.next := sl], next := s.next + 1,
         results := if sl.sent then s.results + [SlotResult(s.next, false)] else s.results)
    case Emit(i, n, u) =>
      s.(dep := PatchSlot(s.dep, s.slots[i].ids[n], u))
    case Return(i, n, ok) =>
      var sl := Returned(s.slots[i], n, ok);
      s.(slots := s.slots[i := sl],
         results := if |sl.nodes| == 1 then s.results + [SlotResult(i, ok)] else s.results)
    case Collect(i) =>
      s.(slots := s.slots[i := Collected(s.slots[i])])
    case Send(i) =>
      s.(slots := s.slots[i := s.slots[i].(sent := true)],
         results := s.results + [SlotResult(i, s.slots[i].failures == 0)])
    case Receive =>
      s.(results := s.results[1..], received := s.received + [s.results[0]],
         successes := s.successes + if s.results[0].ok then 1 else 0)
    case Stamp =>
      s.(aggregated := true, dep := s.dep.(state := Aggregate(|s.slots|, s.successes)))
  }

  function Exec(s: State, run: seq<Action>): State
    decreases |run|
  {
    if run == [] then s else Step(Exec(s, run[..|run| - 1]), run[|run| - 1])
  }

  function Fresh(m: Member): Slot {
    Slot(m.ids, seq(|m.ids|, i => Idle), false, [], 0, 0, false)
  }

  /** A create whose placements have just been recorded. */
  function Init(d: Deployment): State {
    State(d, seq(|d.replicas|, i requires 0 <= i < |d.replicas| => Fresh(d.replicas[i])), 0, [], [], 0, false)
  }

  // ----- Invariant --------------------------------------------------------

  function IsDone(n: Node): int { if n.Done? then 1 else 0 }
  function IsFailed(n: Node): int { if n == Done(false) then 1 else 0 }
  function IsFalse(b: bool): int { if b then 0 else 1 }
  function SentOne(sl: Slot): int { if sl.sent then 1 else 0 }
  function WonOne(sl: Slot): int { if sl.sent && Succeeded(sl) then 1 else 0 }
  function OkOne(r: SlotResult): int { if r.ok then 1 else 0 }

  /** Every node of the member came up. */
  predicate Succeeded(sl: Slot) {
    sl.launched && forall n :: 0 <= n < |sl.nodes| ==> sl.nodes[n] == Done(true)
  }

  predicate AllDone(sl: Slot) { forall n :: 0 <= n < |sl.nodes| ==> sl.nodes[n].Done? }

  predicate Quiet(sl: Slot) { sl.per == [] && sl.read == 0 && sl.failures == 0 }

  predicate SlotInv(sl: Slot) {
    && |sl.nodes| == |sl.ids|
    && (!sl.launched ==> Quiet(sl) && forall n :: 0 <= n < |sl.nodes| ==> sl.nodes[n] == Idle)
    && (sl.launched ==> |sl.nodes| > 0 && forall n :: 0 <= n < |sl.nodes| ==> sl.nodes[n] != Idle)
    && (sl.launched && |sl.nodes| == 1 ==> Quiet(sl) && (sl.sent <==> sl.nodes[0].Done?))
    && (sl.launched && |sl.nodes| > 1 ==>
          && SumOf(sl.nodes, IsDone) == |sl.per| + sl.read
          && SumOf(sl.nodes, IsFailed) == SumOf(sl.per, IsFalse) + sl.failures
          && (sl.sent ==> sl.read == |sl.nodes|))
    && (sl.launched && sl.sent ==> AllDone(sl))
  }

  /** How many results a slot has produced. */
  function ResultsFrom(rs: seq<SlotResult>, i: nat): nat {
    if rs == [] then 0
    else ResultsFrom(rs[..|rs| - 1], i) + if rs[|rs| - 1].slot == i then 1 else 0
  }

  /** Every result ever sent: read ones first, then those still in the channel. */
  function AllResults(s: State): seq<SlotResult> { s.received + s.results }

  ghost predicate SlotsInv(s: State) {
    && s.next <= |s.slots|
    && (forall i :: 0 <= i < |s.slots| ==> SlotInv(s.slots[i]))
    && (forall i :: 0 <= i < s.next ==> s.slots[i].launched || s.slots[i].sent)
    && (forall i :: s.next <= i < |s.slots| ==> !s.slots[i].launched && !s.slots[i].sent)
  }

  ghost predicate ResultsInv(slots: seq<Slot>, all: seq<SlotResult>) {
    && (forall k :: 0 <= k < |all| ==> all[k].slot < |slots| && slots[all[k].slot].sent
                                       && all[k].ok == Succeeded(slots[all[k].slot]))
    && (forall i: nat :: i < |slots| ==> ResultsFrom(all, i) == SentOne(slots[i]))
    && |all| == SumOf(slots, SentOne)
    && SumOf(all, OkOne) == SumOf(slots, WonOne)
  }

  ghost predicate RecordInv(s: State) {
    && |s.dep.replicas| == |s.slots|
    && (forall i :: 0 <= i < |s.slots| ==> s.dep.replicas[i].ids == s.slots[i].ids)
    && (!s.aggregated ==> Rank(s.dep.state) > 0)
    && (s.aggregated ==> s.next == |s.slots| == |s.received| && s.dep.state == Aggregate(|s.slots|, s.successes))
  }

  ghost predicate Inv(s: State) {
    SlotsInv(s) && ResultsInv(s.slots, AllResults(s)) && RecordInv(s) && s.successes == SumOf(s.received, OkOne)
  }

  // ----- Counting ---------------------------------------------------------

  lemma {:induction false} SumConcat<T>(a: seq<T>, b: seq<T>, f: T -> int)
    ensures SumOf(a + b, f) == SumOf(a, f) + SumOf(b, f)
  {
    if a == [] {
      assert a + b == b;
    } else {
      SumConcat(a[1..], b, f);
      assert (a + b)[1..] == a[1..] + b;
    }
  }

  lemma SumAppend<T>(a: seq<T>, x: T, f: T -> int)
    ensures SumOf(a + [x], f) == SumOf(a, f) + f(x)
  {
    SumConcat(a, [x], f);
    assert SumOf([x], f) == f(x) + SumOf([x][1..], f);
  }

  /** A sum of zeros and ones is at most the length, and equal to it only when
      every term is one. */
  lemma {:induction false} SumOfBits<T>(s: seq<T>, f: T -> int)
    requires forall k :: 0 <= k < |s| ==> 0 <= f(s[k]) <= 1
    ensures 0 <= SumOf(s, f) <= |s|
    ensures SumOf(s, f) == |s| ==> forall k :: 0 <= k < |s| ==> f(s[k]) == 1
  {
    if s != [] {
      SumOfBits(s[1..], f);
      assert forall k :: 1 <= k < |s| ==> s[k] == s[1..][k - 1];
    }
  }

  // ----- One slot's own transitions ---------------------------------------

  lemma LaunchedKeepsSlot(sl: Slot, keyOk: bool)
    requires SlotInv(sl) && !sl.launched && !sl.sent
    ensures SlotInv(Launched(sl, keyOk))
    ensures Launched(sl, keyOk).sent ==> !Succeeded(Launched(sl, keyOk))
  {
    var sl' := Launched(sl, keyOk);
    if sl'.launched {
      SumZero(sl'.nodes, IsDone);
      SumZero(sl'.nodes, IsFailed);
    }
  }

  lemma ReturnedKeepsSlot(sl: Slot, n: nat, ok: bool)
    requires SlotInv(sl) && n < |sl.nodes| && sl.nodes[n] == Working
    ensures var r := Returned(sl, n, ok);
            && SlotInv(r) && r.ids == sl.ids && r.launched && !sl.sent
            && (r.sent <==> |r.nodes| == 1) && (r.sent ==> Succeeded(r) == ok)
  {
    var d := Done(ok);
    SumUpdate(sl.nodes, n, d, IsDone);
    SumUpdate(sl.nodes, n, d, IsFailed);
    SumAppend(sl.per, ok, IsFalse);
  }

  lemma CollectedKeepsSlot(sl: Slot)
    requires SlotInv(sl) && sl.launched && sl.per != []
    ensures SlotInv(Collected(sl)) && !sl.sent
  {
    SumOfBits(sl.nodes, IsDone);
  }

  /** When a multi-node member answers, every node has, and it reports success
      exactly when all of them came up. */
  lemma SendKeepsSlot(sl: Slot)
    requires SlotInv(sl) && sl.launched && |sl.nodes| > 1 && sl.read == |sl.nodes|
    ensures SlotInv(sl.(sent := true))
    ensures Succeeded(sl.(sent := true)) <==> sl.failures == 0
  {
    SumOfBits(sl.nodes, IsDone);
    assert sl.per == [];
    assert forall n :: 0 <= n < |sl.nodes| ==> IsDone(sl.nodes[n]) == 1;
    if sl.failures == 0 {
      forall n | 0 <= n < |sl.nodes|
        ensures sl.nodes[n] == Done(true)
      {
        SumAtLeast(sl.nodes, n, IsFailed);
      }
    } else {
      var n := SumPositive(sl.nodes, IsFailed);
      assert sl.nodes[n] != Done(true);
    }
  }

  // ----- Results ----------------------------------------------------------

  /** A slot changed without answering. */
  lemma SilentKeepsResults(slots: seq<Slot>, all: seq<SlotResult>, i: nat, sl: Slot)
    requires ResultsInv(slots, all) && i < |slots| && !slots[i].sent && !sl.sent
    ensures ResultsInv(slots[i := sl], all)
  {
    SumUpdate(slots, i, sl, SentOne);
    SumUpdate(slots, i, sl, WonOne);
  }

  /** A slot answered for the first time. */
  lemma AnswerKeepsResults(slots: seq<Slot>, all: seq<SlotResult>, i: nat, sl: Slot)
    requires ResultsInv(slots, all) && i < |slots| && !slots[i].sent && sl.sent
    ensures ResultsInv(slots[i := sl], all + [SlotResult(i, Succeeded(sl))])
  {
    var r := SlotResult(i, Succeeded(sl));
    SumUpdate(slots, i, sl, SentOne);
    SumUpdate(slots, i, sl, WonOne);
    SumAppend(all, r, OkOne);
    assert (all + [r])[..|all|] == all;
  }

  // ----- Every step keeps the invariant -----------------------------------

  /** A step that replaces one slot and appends what it answered. */
  function Replace(s: State, i: nat, sl: Slot, next: nat, rs: seq<SlotResult>): State
    requires i < |s.slots|
  {
    s.(slots := s.slots[i := sl], next := next, results := s.results + rs)
  }

  lemma ReplaceKeepsSlots(s: State, i: nat, sl: Slot, next: nat, rs: seq<SlotResult>)
    requires SlotsInv(s) && i < next <= |s.slots|
    requires next == s.next || i == s.next == next - 1
    requires SlotInv(sl) && (sl.launched || sl.sent)
    ensures SlotsInv(Replace(s, i, sl, next, rs))
  {
  }

  lemma ReplaceKeepsRecord(s: State, i: nat, sl: Slot, next: nat, rs: seq<SlotResult>)
    requires RecordInv(s) && i < next <= |s.slots|
    requires next == s.next || i == s.next == next - 1
    requires sl.ids == s.slots[i].ids
    ensures RecordInv(Replace(s, i, sl, next, rs))
  {
  }

  lemma ReplaceKeepsInv(s: State, i: nat, sl: Slot, next: nat, rs: seq<SlotResult>)
    requires Inv(s) && i < next <= |s.slots|
    requires next == s.next || i == s.next == next - 1
    requires SlotInv(sl) && (sl.launched || sl.sent) && sl.ids == s.slots[i].ids && !s.slots[i].sent
    requires rs == if sl.sent then [SlotResult(i, Succeeded(sl))] else []
    ensures Inv(Replace(s, i, sl, next, rs))
  {
    ReplaceKeepsSlots(s, i, sl, next, rs);
    ReplaceKeepsRecord(s, i, sl, next, rs);
    var all := AllResults(s);
    if sl.sent {
      AnswerKeepsResults(s.slots, all, i, sl);
    } else {
      SilentKeepsResults(s.slots, all, i, sl);
      assert all + rs == all;
    }
    Associates(s.received, s.results, rs);
  }

  lemma LaunchIsReplace(s: State, keyOk: bool)
    requires s.next < |s.slots|
    ensures var sl := Launched(s.slots[s.next], keyOk);
            Step(s, Launch(keyOk))
            == Replace(s, s.next, sl, s.next + 1, if sl.sent then [SlotResult(s.next, false)] else [])
  {
  }

  lemma LaunchKeepsInv(s: State, keyOk: bool)
    requires Inv(s) && Enabled(s, Launch(keyOk))
    ensures Inv(Step(s, Launch(keyOk)))
  {
    var i, sl := s.next, Launched(s.slots[s.next], keyOk);
    assert SlotInv(s.slots[i]);
    LaunchedKeepsSlot(s.slots[i], keyOk);
    ReplaceKeepsInv(s, i, sl, i + 1, if sl.sent then [SlotResult(i, false)] else []);
    LaunchIsReplace(s, keyOk);
  }

  /** A working slot has been launched, and not answered. */
  lemma BusySlot(s: State, i: nat, n: nat)
    requires SlotsInv(s) && Busy(s, i, n)
    ensures s.slots[i].launched && !s.slots[i].sent && i < s.next
  {
    assert SlotInv(s.slots[i]);
  }

  lemma EmitKeepsInv(s: State, i: nat, n: nat, u: Update)
    requires Inv(s) && Enabled(s, Emit(i, n, u))
    ensures Inv(Step(s, Emit(i, n, u))) && !s.aggregated
  {
    BusySlot(s, i, n);
    if |s.received| == |s.slots| {
      AggregatedMeansDone(s);
    }
    PatchKeepsRecord(s, s.slots[i].ids[n], u);
  }

  lemma PatchKeepsRecord(s: State, id: string, u: Update)
    requires RecordInv(s) && !s.aggregated
    ensures RecordInv(s.(dep := PatchSlot(s.dep, id, u)))
  {
  }

  /** What the step does to the slot and what the slot answers. */
  lemma ReturnIsReplace(s: State, i: nat, n: nat, ok: bool)
    requires Enabled(s, Return(i, n, ok)) && !s.slots[i].sent
    ensures var sl := Returned(s.slots[i], n, ok);
            Step(s, Return(i, n, ok)) == Replace(s, i, sl, s.next, if sl.sent then [SlotResult(i, ok)] else [])
  {
  }

  lemma ReturnKeepsInv(s: State, i: nat, n: nat, ok: bool)
    requires Inv(s) && Enabled(s, Return(i, n, ok))
    ensures Inv(Step(s, Return(i, n, ok)))
  {
    var sl := Returned(s.slots[i], n, ok);
    BusySlot(s, i, n);
    assert SlotInv(s.slots[i]);
    ReturnedKeepsSlot(s.slots[i], n, ok);
    var rs := if sl.sent then [SlotResult(i, ok)] else [];
    ReplaceKeepsInv(s, i, sl, s.next, rs);
    ReturnIsReplace(s, i, n, ok);
  }

  lemma CollectKeepsInv(s: State, i: nat)
    requires Inv(s) && Enabled(s, Collect(i))
    ensures Inv(Step(s, Collect(i)))
  {
    var sl := Collected(s.slots[i]);
    assert SlotInv(s.slots[i]);
    CollectedKeepsSlot(s.slots[i]);
    ReplaceKeepsInv(s, i, sl, s.next, []);
    assert Step(s, Collect(i)) == Replace(s, i, sl, s.next, []);
  }

  lemma SendKeepsInv(s: State, i: nat)
    requires Inv(s) && Enabled(s, Send(i))
    ensures Inv(Step(s, Send(i)))
  {
    var sl := s.slots[i].(sent := true);
    SendKeepsSlot(s.slots[i]);
    var rs := [SlotResult(i, Succeeded(sl))];
    ReplaceKeepsInv(s, i, sl, s.next, rs);
    assert Step(s, Send(i)) == Replace(s, i, sl, s.next, rs);
  }

  lemma ReceiveKeepsInv(s: State)
    requires Inv(s) && Enabled(s, Receive)
    ensures Inv(Step(s, Receive))
  {
    var t := Step(s, Receive);
    assert AllResults(t) == AllResults(s);
    SumAppend(s.received, s.results[0], OkOne);
  }

  lemma StepKeepsInv(s: State, a: Action)
    requires Inv(s)
    ensures Inv(Step(s, a))
  {
    if Enabled(s, a) {
      match a
      case Launch(keyOk) => LaunchKeepsInv(s, keyOk);
      case Emit(i, n, u) => EmitKeepsInv(s, i, n, u);
      case Return(i, n, ok) => ReturnKeepsInv(s, i, n, ok);
      case Collect(i) => CollectKeepsInv(s, i);
      case Send(i) => SendKeepsInv(s, i);
      case Receive => ReceiveKeepsInv(s);
      case Stamp =>
    }
  }

  lemma InitSlots(d: Deployment)
    ensures SlotsInv(Init(d))
  {
    forall i | 0 <= i < |d.replicas|
      ensures SlotInv(Fresh(d.replicas[i]))
    {
    }
  }

  lemma InitResults(d: Deployment)
    ensures ResultsInv(Init(d).slots, [])
  {
    SumZero(Init(d).slots, SentOne);
    SumZero(Init(d).slots, WonOne);
  }

  lemma InitInv(d: Deployment)
    requires Rank(d.state) > 0
    ensures Inv(Init(d))
  {
    InitSlots(d);
    InitResults(d);
    assert AllResults(Init(d)) == [];
  }

  lemma {:induction false} ExecKeepsInv(d: Deployment, run: seq<Action>)
    requires Rank(d.state) > 0
    ensures Inv(Exec(Init(d), run))
    decreases |run|
  {
    if run == [] {
      InitInv(d);
    } else {
      ExecKeepsInv(d, run[..|run| - 1]);
      StepKeepsInv(Exec(Init(d), run[..|run| - 1]), run[|run| - 1]);
    }
  }

  // ----- What it means ----------------------------------------------------

  /** Once every slot's result has been read, no node is still working and the
      tally is the number of members that came up whole. */
  lemma AggregatedMeansDone(s: State)
    requires Inv(s) && |s.received| == |s.slots|
    ensures s.results == []
    ensures forall i :: 0 <= i < |s.slots| ==> s.slots[i].sent
    ensures forall i, n :: 0 <= i < |s.slots| && 0 <= n < |s.slots[i].nodes| ==> s.slots[i].nodes[n] != Working
    ensures s.successes == SumOf(s.slots, WonOne)
  {
    SumOfBits(s.slots, SentOne);
    assert s.results == [];
    assert AllResults(s) == s.received;
    assert forall i :: 0 <= i < |s.slots| ==> SentOne(s.slots[i]) == 1;
  }

  /** The members that came up with every node. */
  function Won(slots: seq<Slot>): set<nat> {
    set i: nat | i < |slots| && Succeeded(slots[i])
  }

  lemma {:induction false} WonCount(slots: seq<Slot>)
    requires forall i :: 0 <= i < |slots| ==> slots[i].sent
    ensures |Won(slots)| == SumOf(slots, WonOne)
    decreases |slots|
  {
    if slots != [] {
      var n := |slots| - 1;
      var before := slots[..n];
      WonCount(before);
      SumAppend(before, slots[n], WonOne);
      assert before + [slots[n]] == slots;
      assert Won(slots) == if Succeeded(slots[n]) then Won(before) + {n} else Won(before);
    }
  }

  /** Exactly one result per slot, in every reachable state: none before the slot
      answers, one after, and it tells the truth about the member. */
  lemma OneResultPerSlot(d: Deployment, run: seq<Action>, i: nat)
    requires Rank(d.state) > 0 && i < |d.replicas|
    ensures var s := Exec(Init(d), run);
            && |s.slots| == |d.replicas|
            && ResultsFrom(AllResults(s), i) == (if s.slots[i].sent then 1 else 0)
            && forall k :: 0 <= k < |AllResults(s)| && AllResults(s)[k].slot == i ==>
                 AllResults(s)[k].ok == Succeeded(s.slots[i])
  {
    ExecKeepsInv(d, run);
    RunKeepsCount(d, run);
  }

  lemma {:induction false} RunKeepsCount(d: Deployment, run: seq<Action>)
    ensures |Exec(Init(d), run).slots| == |d.replicas|
    decreases |run|
  {
    if run != [] {
      RunKeepsCount(d, run[..|run| - 1]);
    }
  }

  /** The outcome of a create: until the aggregate is stamped the deployment is
      still provisioning; afterwards nothing is working any more, and its state
      says how many members came up, whatever the order of events. */
  lemma AggregateIsTruth(d: Deployment, run: seq<Action>)
    requires Rank(d.state) > 0
    ensures var s := Exec(Init(d), run);
            && (!s.aggregated ==> s.dep.state in {Pending, Starting, Configuring})
            && (s.aggregated ==>
                 && (forall i, n :: 0 <= i < |s.slots| && 0 <= n < |s.slots[i].nodes| ==> s.slots[i].nodes[n] != Working)
                 && (s.dep.state == Running <==> forall i :: 0 <= i < |s.slots| ==> Succeeded(s.slots[i]))
                 && (s.dep.state == Failed <==> s.slots != [] && forall i :: 0 <= i < |s.slots| ==> !Succeeded(s.slots[i]))
                 && s.dep.state in {Running, Degraded, Failed})
  {
    ExecKeepsInv(d, run);
    var s := Exec(Init(d), run);
    if s.aggregated {
      AggregatedMeansDone(s);
      TallyMeans(s.slots);
    }
  }

  /** What the two ends of the tally say. */
  lemma TallyMeans(slots: seq<Slot>)
    requires forall i :: 0 <= i < |slots| ==> slots[i].sent
    ensures 0 <= SumOf(slots, WonOne) <= |slots|
    ensures SumOf(slots, WonOne) == |slots| <==> forall i :: 0 <= i < |slots| ==> Succeeded(slots[i])
    ensures SumOf(slots, WonOne) == 0 <==> forall i :: 0 <= i < |slots| ==> !Succeeded(slots[i])
  {
    SumOfBits(slots, WonOne);
    if SumOf(slots, WonOne) == |slots| {
      assert forall i :: 0 <= i < |slots| ==> WonOne(slots[i]) == 1;
    } else if forall i :: 0 <= i < |slots| ==> Succeeded(slots[i]) {
      AllWon(slots);
    }
    if SumOf(slots, WonOne) == 0 {
      forall i | 0 <= i < |slots|
        ensures !Succeeded(slots[i])
      {
        SumAtLeast(slots, i, WonOne);
      }
    } else {
      var i := SumPositive(slots, WonOne);
      assert Succeeded(slots[i]);
    }
  }

  lemma {:induction false} AllWon(slots: seq<Slot>)
    requires forall i :: 0 <= i < |slots| ==> slots[i].sent && Succeeded(slots[i])
    ensures SumOf(slots, WonOne) == |slots|
  {
    if slots != [] {
      AllWon(slots[1..]);
    }
  }

  /** Two runs of the same create in which the same members come up end in the
      same state. */
  lemma OutcomeOrderIndependent(d: Deployment, run: seq<Action>, other: seq<Action>)
    requires Rank(d.state) > 0
    requires Exec(Init(d), run).aggregated && Exec(Init(d), other).aggregated
    requires |Won(Exec(Init(d), run).slots)| == |Won(Exec(Init(d), other).slots)|
    ensures Exec(Init(d), run).dep.state == Exec(Init(d), other).dep.state
  {
    var s, t := Exec(Init(d), run), Exec(Init(d), other);
    ExecKeepsInv(d, run);
    ExecKeepsInv(d, other);
    RunKeepsCount(d, run);
    RunKeepsCount(d, other);
    AggregatedMeansDone(s);
    AggregatedMeansDone(t);
    WonCount(s.slots);
    WonCount(t.slots);
  }

  /** Along a run the state only climbs until the aggregate, and is final after it.
      A node reports only until its Deploy returns, and the aggregate waits for
      all of them; a provider that went on reporting afterwards would move RUNNING
      back (Fanout.ServingStateSurvivesIff). */
  lemma {:induction false} StateClimbsThenSettles(d: Deployment, run: seq<Action>, more: seq<Action>)
    requires Rank(d.state) > 0
    ensures var s, t := Exec(Init(d), run), Exec(Init(d), run + more);
            && (s.aggregated ==> t.aggregated && t.dep == s.dep)
            && (!t.aggregated ==> Rank(s.dep.state) <= Rank(t.dep.state))
    decreases |more|
  {
    if more == [] {
      assert run + more == run;
    } else {
      var m := |more| - 1;
      StateClimbsThenSettles(d, run, more[..m]);
      assert (run + more)[..|run + more| - 1] == run + more[..m];
      ReachableStepClimbs(d, run + more[..m], more[m]);
    }
  }

  /** By name: before the aggregate CONFIGURING is never followed by STARTING or
      PENDING, nor STARTING by PENDING. */
  lemma NeverBackwards(d: Deployment, run: seq<Action>, more: seq<Action>)
    requires d.state in {Pending, Starting, Configuring} && !Exec(Init(d), run + more).aggregated
    ensures var before, after := Exec(Init(d), run).dep.state, Exec(Init(d), run + more).dep.state;
            && (before == Configuring ==> after == Configuring)
            && (before == Starting ==> after == Starting || after == Configuring)
            && after in {Pending, Starting, Configuring}
  {
    StateClimbsThenSettles(d, run, more);
    AggregateIsTruth(d, run);
    AggregateIsTruth(d, run + more);
  }

  lemma ReachableStepClimbs(d: Deployment, run: seq<Action>, a: Action)
    requires Rank(d.state) > 0
    ensures var s := Exec(Init(d), run);
            && (s.aggregated ==> Step(s, a).aggregated && Step(s, a).dep == s.dep)
            && (!Step(s, a).aggregated ==> Rank(s.dep.state) <= Rank(Step(s, a).dep.state))
  {
    ExecKeepsInv(d, run);
    StepClimbs(Exec(Init(d), run), a);
  }

  lemma StepClimbs(s: State, a: Action)
    requires Inv(s)
    ensures s.aggregated ==> Step(s, a).aggregated && Step(s, a).dep == s.dep
    ensures !Step(s, a).aggregated ==> Rank(s.dep.state) <= Rank(Step(s, a).dep.state)
  {
    if a.Emit? && Enabled(s, a) {
      EmitKeepsInv(s, a.slot, a.node, a.u);
    }
  }

  // ----- What the record holds --------------------------------------------

  /** The reports that reach the record, in order. */
  function ReportsOf(d: Deployment, run: seq<Action>): seq<Report>
    decreases |run|
  {
    if run == [] then []
    else
      var n := |run| - 1;
      var s, a := Exec(Init(d), run[..n]), run[n];
      ReportsOf(d, run[..n]) + if a.Emit? && Enabled(s, a) then [Report(s.slots[a.slot].ids[a.node], a.u)] else []
  }

  /** A node reports exactly while it works, and only the record changes. */
  lemma EmitTable(s: State, i: nat, n: nat, u: Update)
    requires i < |s.slots| && n < |s.slots[i].nodes| == |s.slots[i].ids|
    ensures Enabled(s, Emit(i, n, u)) <==> s.slots[i].nodes[n] == Working
    ensures Enabled(s, Emit(i, n, u)) ==> Step(s, Emit(i, n, u)) == s.(dep := PatchSlot(s.dep, s.slots[i].ids[n], u))
  {
  }

  lemma PatchOneMore(d: Deployment, h: seq<Report>, r: Report)
    ensures PatchAll(d, h + [r]) == PatchSlot(PatchAll(d, h), r.id, r.u)
  {
    assert (h + [r])[..|h|] == h;
  }

  /** At every moment before the aggregate the record is what the reports so far make
      of it, one after the other; the aggregate then sets the state and only that. */
  lemma {:induction false} RecordIsReports(d: Deployment, run: seq<Action>)
    requires Rank(d.state) > 0
    ensures var s := Exec(Init(d), run);
            s.dep == if s.aggregated then PatchAll(d, ReportsOf(d, run)).(state := Aggregate(|s.slots|, s.successes))
                     else PatchAll(d, ReportsOf(d, run))
    decreases |run|
  {
    if run != [] {
      var n := |run| - 1;
      var s, a := Exec(Init(d), run[..n]), run[n];
      RecordIsReports(d, run[..n]);
      ExecKeepsInv(d, run[..n]);
      if a.Emit? && Enabled(s, a) {
        EmitKeepsInv(s, a.slot, a.node, a.u);
        PatchOneMore(d, ReportsOf(d, run[..n]), Report(s.slots[a.slot].ids[a.node], a.u));
      } else {
        assert ReportsOf(d, run) == ReportsOf(d, run[..n]);
        QuietStep(s, a);
      }
    }
  }

  lemma QuietStep(s: State, a: Action)
    requires Inv(s) && !(a.Emit? && Enabled(s, a))
    ensures var s' := Step(s, a);
            && |s'.slots| == |s.slots|
            && (s.aggregated ==> s'.aggregated && s'.dep == s.dep && s'.successes == s.successes)
            && (!s.aggregated ==> s'.dep == if s'.aggregated then s.dep.(state := Aggregate(|s.slots|, s'.successes)) else s.dep)
  {
  }

  // ----- The fan-out always completes -------------------------------------

  function Open(n: Node): int { if n.Done? then 0 else 2 }

  function SlotWork(sl: Slot): int {
    SumOf(sl.nodes, Open) + |sl.per| + (if sl.sent then 0 else 2) + if sl.launched then 0 else 1
  }

  /** What is left to do, reports aside. */
  function Work(s: State): int {
    SumOf(s.slots, SlotWork) + |s.results| + if s.aggregated then 0 else 1
  }

  lemma WorkNonNegative(s: State)
    ensures Work(s) >= 0
  {
    forall i | 0 <= i < |s.slots|
      ensures SlotWork(s.slots[i]) >= 0
    {
      SumNonNegative(s.slots[i].nodes, Open);
    }
    SumNonNegative(s.slots, SlotWork);
  }

  lemma LaunchedWork(sl: Slot, keyOk: bool)
    requires SlotInv(sl) && !sl.launched && !sl.sent
    ensures SlotWork(Launched(sl, keyOk)) + SentOne(Launched(sl, keyOk)) < SlotWork(sl)
  {
    var sl' := Launched(sl, keyOk);
    SumPointwise(sl.nodes, sl'.nodes, Open);
  }

  lemma ReturnedWork(sl: Slot, n: nat, ok: bool)
    requires SlotInv(sl) && n < |sl.nodes| && sl.nodes[n] == Working
    ensures SlotWork(Returned(sl, n, ok)) + SentOne(Returned(sl, n, ok)) < SlotWork(sl)
  {
    SumUpdate(sl.nodes, n, Done(ok), Open);
    ReturnedKeepsSlot(sl, n, ok);
  }

  /** Every effective step other than a report leaves less to do, so a run has
      only finitely many of them. */
  lemma StepDecreasesWork(s: State, a: Action)
    requires Inv(s) && Enabled(s, a) && !a.Emit?
    ensures 0 <= Work(Step(s, a)) < Work(s)
  {
    WorkNonNegative(Step(s, a));
    match a
    case Launch(keyOk) =>
      LaunchedWork(s.slots[s.next], keyOk);
      SumUpdate(s.slots, s.next, Launched(s.slots[s.next], keyOk), SlotWork);
    case Return(i, n, ok) =>
      ReturnedWork(s.slots[i], n, ok);
      SumUpdate(s.slots, i, Returned(s.slots[i], n, ok), SlotWork);
    case Collect(i) =>
      SumUpdate(s.slots, i, Collected(s.slots[i]), SlotWork);
    case Send(i) =>
      SumUpdate(s.slots, i, s.slots[i].(sent := true), SlotWork);
    case Receive =>
    case Stamp =>
  }

  /** Some node of a launched member that has not answered is still working, or
      its result is waiting, or the member is ready to answer. */
  lemma SlotProgress(s: State, i: nat) returns (a: Action)
    requires Inv(s) && i < |s.slots| && s.slots[i].launched && !s.slots[i].sent
    ensures Enabled(s, a) && !a.Emit?
  {
    var sl := s.slots[i];
    assert SlotInv(sl);
    if n: nat :| n < |sl.nodes| && sl.nodes[n] == Working {
      a := Return(i, n, true);
    } else if sl.per != [] {
      a := Collect(i);
    } else {
      AllOnes(sl.nodes);
      a := Send(i);
    }
  }

  lemma {:induction false} AllOnes(nodes: seq<Node>)
    requires forall n :: 0 <= n < |nodes| ==> nodes[n].Done?
    ensures SumOf(nodes, IsDone) == |nodes|
  {
    if nodes != [] {
      AllOnes(nodes[1..]);
    }
  }

  /** The fan-out is never stuck: until the aggregate is stamped some step other
      than a report is possible. */
  lemma Progress(s: State) returns (a: Action)
    requires Inv(s) && !s.aggregated
    ensures Enabled(s, a) && !a.Emit?
  {
    if s.next < |s.slots| {
      a := Launch(true);
    } else if |s.received| == |s.slots| {
      a := Stamp;
    } else if i: nat :| i < |s.slots| && !s.slots[i].sent {
      a := SlotProgress(s, i);
    } else {
      AllSent(s.slots);
      ReceivedAtMost(s);
      a := Receive;
    }
  }

  lemma {:induction false} AllSent(slots: seq<Slot>)
    requires forall i :: 0 <= i < |slots| ==> slots[i].sent
    ensures SumOf(slots, SentOne) == |slots|
  {
    if slots != [] {
      AllSent(slots[1..]);
    }
  }

  lemma ReceivedAtMost(s: State)
    requires Inv(s)
    ensures |s.received| + |s.results| <= |s.slots|
  {
    SumOfBits(s.slots, SentOne);
  }

  lemma {:induction false} FinishFrom(s: State) returns (run: seq<Action>)
    requires Inv(s)
    ensures Exec(s, run).aggregated
    decreases Work(s)
  {
    if s.aggregated {
      run := [];
    } else {
      var a := Progress(s);
      StepDecreasesWork(s, a);
      StepKeepsInv(s, a);
      var rest := FinishFrom(Step(s, a));
      run := [a] + rest;
      ExecSplit(s, a, rest);
    }
  }

  lemma {:induction false} ExecSplit(s: State, a: Action, rest: seq<Action>)
    ensures Exec(s, [a] + rest) == Exec(Step(s, a), rest)
    decreases |rest|
  {
    if rest == [] {
      assert [a] + rest == [a];
      assert Exec(s, [a][..0]) == s;
    } else {
      var m := |rest| - 1;
      var run := [a] + rest;
      ExecSplit(s, a, rest[..m]);
      assert run[..|run| - 1] == [a] + rest[..m] && run[|run| - 1] == rest[m];
      assert Exec(s, run) == Step(Exec(s, [a] + rest[..m]), rest[m]);
    }
  }

  /** From every reachable state the fan-out can still run to its aggregate. */
  lemma EveryFanOutCanFinish(d: Deployment, run: seq<Action>) returns (rest: seq<Action>)
    requires Rank(d.state) > 0
    ensures Exec(Exec(Init(d), run), rest).aggregated
  {
    ExecKeepsInv(d, run);
    rest := FinishFrom(Exec(Init(d), run));
  }

  // ----- And it can succeed -----------------------------------------------

  /** What the loop does with one slot: a placed member whose key loads is launched,
      every node of it working and no answer sent; any other answers at once. */
  lemma LaunchTable(s: State, keyOk: bool)
    requires s.next < |s.slots|
    ensures var i, sl, s' := s.next, s.slots[s.next], Step(s, Launch(keyOk));
            && s'.next == i + 1 && |s'.slots| == |s.slots|
            && (keyOk && sl.ids != [] ==>
                 && s'.slots[i].launched && s'.slots[i].sent == sl.sent && s'.slots[i].ids == sl.ids
                 && |s'.slots[i].nodes| == |sl.nodes| && (forall n :: 0 <= n < |sl.nodes| ==> s'.slots[i].nodes[n] == Working)
                 && (!sl.sent ==> s'.results == s.results))
            && (!keyOk || sl.ids == [] ==>
                 s'.slots[i] == sl.(sent := true) && s'.results == s.results + [SlotResult(i, false)])
  {
  }

  predicate CleanSlot(sl: Slot) {
    && sl.ids != [] && (sl.sent ==> sl.launched)
    && forall n :: 0 <= n < |sl.nodes| ==> sl.nodes[n] != Done(false)
  }

  /** Nothing has gone wrong so far. */
  predicate Clean(s: State) {
    forall i :: 0 <= i < |s.slots| ==> CleanSlot(s.slots[i])
  }

  /** A step that succeeds keeps it so. */
  lemma CleanStep(s: State, a: Action)
    requires Clean(s) && Enabled(s, a) && !a.Emit? && (a.Launch? ==> a.keyOk) && (a.Return? ==> a.ok && s.slots[a.slot].launched)
    ensures Clean(Step(s, a))
  {
    match a
    case Launch(_) => assert CleanSlot(Launched(s.slots[s.next], true));
    case Return(i, n, _) => assert CleanSlot(Returned(s.slots[i], n, true));
    case Collect(i) => assert CleanSlot(Collected(s.slots[i]));
    case Send(i) => assert CleanSlot(s.slots[i].(sent := true));
    case Receive =>
    case Stamp =>
  }

  /** And there is one until the aggregate. */
  lemma CleanProgress(s: State) returns (a: Action)
    requires Inv(s) && Clean(s) && !s.aggregated
    ensures Enabled(s, a) && !a.Emit? && Clean(Step(s, a))
  {
    a := Progress(s);
    if a.Return? {
      BusySlot(s, a.slot, a.node);
      a := Return(a.slot, a.node, true);
    } else if a.Launch? {
      a := Launch(true);
    }
    CleanStep(s, a);
  }

  lemma {:induction false} SucceedFrom(s: State) returns (run: seq<Action>)
    requires Inv(s) && Clean(s)
    ensures Exec(s, run).aggregated && Clean(Exec(s, run)) && Inv(Exec(s, run))
    decreases Work(s)
  {
    if s.aggregated {
      run := [];
    } else {
      var a := CleanProgress(s);
      StepDecreasesWork(s, a);
      StepKeepsInv(s, a);
      var rest := SucceedFrom(Step(s, a));
      run := [a] + rest;
      ExecSplit(s, a, rest);
    }
  }

  ghost predicate ReachesRunning(d: Deployment) {
    exists run: seq<Action> :: Exec(Init(d), run).aggregated && Exec(Init(d), run).dep.state == Running
  }

  lemma RunningWasPlaced(d: Deployment, run: seq<Action>)
    requires Rank(d.state) > 0 && Exec(Init(d), run).aggregated && Exec(Init(d), run).dep.state == Running
    ensures forall i :: 0 <= i < |d.replicas| ==> d.replicas[i].ids != []
  {
    AggregateIsTruth(d, run);
    ExecKeepsInv(d, run);
    RunKeepsIds(d, run);
    var s := Exec(Init(d), run);
    forall i | 0 <= i < |d.replicas|
      ensures d.replicas[i].ids != []
    {
      assert Succeeded(s.slots[i]) && SlotInv(s.slots[i]);
    }
  }

  /** A create can end in RUNNING exactly when every member was placed. */
  lemma CanRunIff(d: Deployment)
    requires Rank(d.state) > 0
    ensures ReachesRunning(d) <==> forall i :: 0 <= i < |d.replicas| ==> d.replicas[i].ids != []
  {
    if run: seq<Action> :| Exec(Init(d), run).aggregated && Exec(Init(d), run).dep.state == Running {
      RunningWasPlaced(d, run);
    }
    if forall i :: 0 <= i < |d.replicas| ==> d.replicas[i].ids != [] {
      InitInv(d);
      var run := SucceedFrom(Init(d));
      AllCleanIsRunning(Exec(Init(d), run));
      assert ReachesRunning(d);
    }
  }

  lemma {:induction false} RunKeepsIds(d: Deployment, run: seq<Action>)
    ensures |Exec(Init(d), run).slots| == |d.replicas|
    ensures forall i :: 0 <= i < |d.replicas| ==> Exec(Init(d), run).slots[i].ids == d.replicas[i].ids
    decreases |run|
  {
    if run != [] {
      RunKeepsIds(d, run[..|run| - 1]);
    }
  }

  lemma AllCleanIsRunning(s: State)
    requires Inv(s) && Clean(s) && s.aggregated
    ensures s.dep.state == Running
  {
    AggregatedMeansDone(s);
    forall i | 0 <= i < |s.slots|
      ensures s.slots[i].sent && Succeeded(s.slots[i])
    {
      assert SlotInv(s.slots[i]) && s.slots[i].launched;
    }
    AllWon(s.slots);
  }
}
