/** The InteractiveFirst scheduler (internal/scheduler/interactive_first.go and
    lane.go) as a step system: any number of submitters, a fixed pool of
    workers, shutdown, and per-deployment in-flight slots, interleaved freely.

    A step is one critical section. The per-tenant length reads of a tryPop scan
    are separate steps, the pop on the chosen sub-queue is a later one, and a
    push is two (the lane lock, then the sub-queue lock). The model lets other
    lane-lock sections run during a scan, which only adds behaviours. */
module Dispatch {
  import opened Common

  datatype LaneName = Interactive | Batch
  datatype Entry = Entry(lane: LaneName, tenant: string, deployment: string)
  type Key = (LaneName, string)

  /** Where an accepted entry is. */
  datatype Place = Queued | Hands(w: nat) | Handler(w: nat) | Finished | Abandoned

  /** What the worker's interactive attempt of this round came to. */
  datatype Tried = NoAttempt | SawEmpty | Raced(t: string, at: nat)

  /** `seen` maps a tenant read as non-empty to the number of its entries popped
      by then; `mark` is the number of entries accepted when the round's
      interactive scan began. */
  datatype Phase =
    | Top
    | Scan(lane: LaneName, todo: set<string>, seen: map<string, nat>, wasClosed: bool, mark: nat, tried: Tried)
    | Chosen(lane: LaneName, t: string, at: nat, mark: nat, tried: Tried)
    | Carry(n: nat, dep: string)
    | Running(n: nat, dep: string)
    | Exited

  datatype Worker = Worker(iOpen: bool, bOpen: bool, phase: Phase)

  /** Entries are named by their position in the acceptance log. */
  datatype State = State(
    inFlightCap: nat, capI: nat, capB: nat,
    queues: map<Key, seq<nat>>, popped: map<Key, seq<nat>>,
    laneClosed: set<LaneName>, queueClosed: set<Key>, cancelled: bool,
    pushing: seq<Entry>, accepted: seq<Entry>, place: seq<Place>,
    workers: seq<Worker>, sems: map<string, nat>)

  datatype Action =
    | Submit(e: Entry) | Push(i: nat)
    | CloseLane(l: LaneName) | CloseQueue(k: Key) | CancelRoot
    | Begin(w: nat) | Read(w: nat, t: string) | EndScan(w: nat, t: string) | Pop(w: nat)
    | Acquire(w: nat) | Abandon(w: nat) | Finish(w: nat)

  function KeyOf(e: Entry): Key { (e.lane, e.tenant) }
  function Q(s: State, k: Key): seq<nat> { if k in s.queues then s.queues[k] else [] }
  function P(s: State, k: Key): seq<nat> { if k in s.popped then s.popped[k] else [] }
  function Cap(s: State, l: LaneName): nat { if l == Interactive then s.capI else s.capB }
  function Sem(s: State, d: string): nat { if d in s.sems then s.sems[d] else 0 }

  function TenantsOf(s: State, l: LaneName): set<string> {
    set k | k in s.queues && k.0 == l :: k.1
  }

  predicate Init(s: State) {
    && s.capI > 0 && s.capB > 0 && s.workers != []
    && s.queues == map[] && s.popped == map[] && s.sems == map[]
    && s.laneClosed == {} && s.queueClosed == {} && !s.cancelled
    && s.pushing == [] && s.accepted == [] && s.place == []
    && forall i :: 0 <= i < |s.workers| ==> s.workers[i] == Worker(true, true, Top)
  }

  // ----- Steps ------------------------------------------------------------

  function StartScan(s: State, l: LaneName, mark: nat, tried: Tried): Phase {
    Scan(l, TenantsOf(s, l), map[], l in s.laneClosed, mark, tried)
  }

  /** The rest of the round after a lane yielded nothing. */
  function Missed(s: State, k: Worker, l: LaneName, mark: nat, tried: Tried): Worker {
    if l == Interactive && k.bOpen then k.(phase := StartScan(s, Batch, mark, tried))
    else if !k.iOpen && !k.bOpen then k.(phase := Exited)
    else k.(phase := Top)
  }

  function Shut(k: Worker, l: LaneName): Worker {
    if l == Interactive then k.(iOpen := false) else k.(bOpen := false)
  }

  function SetWorker(s: State, w: nat, k: Worker): State
    requires w < |s.workers|
  {
    s.(workers := s.workers[w := k])
  }

  function DoSubmit(s: State, e: Entry): State {
    if e.lane in s.laneClosed then s
    else s.(queues := if KeyOf(e) in s.queues then s.queues else s.queues[KeyOf(e) := []],
            pushing := s.pushing + [e])
  }

  function DoPush(s: State, i: nat): State
    requires i < |s.pushing|
  {
    var e := s.pushing[i];
    var k := KeyOf(e);
    var s1 := s.(pushing := s.pushing[..i] + s.pushing[i + 1..]);
    if k in s.queueClosed || |Q(s, k)| >= Cap(s, e.lane) then s1
    else s1.(queues := s.queues[k := Q(s, k) + [|s.accepted|]], accepted := s.accepted + [e], place := s.place + [Queued])
  }

  function DoBegin(s: State, w: nat): State
    requires w < |s.workers|
  {
    var k := s.workers[w];
    SetWorker(s, w,
      if s.cancelled || (!k.iOpen && !k.bOpen) then k.(phase := Exited)
      else if k.iOpen then k.(phase := StartScan(s, Interactive, |s.accepted|, NoAttempt))
      else k.(phase := StartScan(s, Batch, 0, NoAttempt)))
  }

  function DoRead(s: State, w: nat, t: string): State
    requires w < |s.workers| && s.workers[w].phase.Scan?
  {
    var k := s.workers[w];
    var key := (k.phase.lane, t);
    SetWorker(s, w, k.(phase := k.phase.(
      todo := k.phase.todo - {t},
      seen := if Q(s, key) == [] then k.phase.seen else k.phase.seen[t := |P(s, key)|])))
  }

  function DoEndScan(s: State, w: nat, t: string): State
    requires w < |s.workers| && s.workers[w].phase.Scan?
  {
    var k := s.workers[w];
    var p := k.phase;
    SetWorker(s, w,
      if t in p.seen then k.(phase := Chosen(p.lane, t, p.seen[t], p.mark, p.tried))
      else Missed(s, if p.wasClosed then Shut(k, p.lane) else k, p.lane, p.mark,
                  if p.lane == Interactive then SawEmpty else p.tried))
  }

  function DoPop(s: State, w: nat): State
    requires w < |s.workers| && s.workers[w].phase.Chosen?
  {
    var k := s.workers[w];
    var p := k.phase;
    var key := (p.lane, p.t);
    var q := Q(s, key);
    if q != [] && q[0] < |s.accepted| && q[0] < |s.place| then
      SetWorker(s, w, k.(phase := Carry(q[0], s.accepted[q[0]].deployment)))
      .(queues := s.queues[key := q[1..]], popped := s.popped[key := P(s, key) + [q[0]]],
        place := s.place[q[0] := Hands(w)])
    else
      SetWorker(s, w, Missed(s, if key in s.queueClosed then Shut(k, p.lane) else k, p.lane, p.mark,
                             if p.lane == Interactive then Raced(p.t, p.at) else p.tried))
  }

  predicate Enabled(s: State, a: Action) {
    match a
    case Submit(_) => true
    case Push(i) => i < |s.pushing|
    case CloseLane(_) => true
    case CloseQueue(k) => k.0 in s.laneClosed
    case CancelRoot => true
    case Begin(w) => w < |s.workers| && s.workers[w].phase == Top
    case Read(w, t) => w < |s.workers| && s.workers[w].phase.Scan? && t in s.workers[w].phase.todo
    case EndScan(w, t) =>
      && w < |s.workers| && s.workers[w].phase.Scan? && s.workers[w].phase.todo == {}
      && (t in s.workers[w].phase.seen || s.workers[w].phase.seen == map[])
    case Pop(w) => w < |s.workers| && s.workers[w].phase.Chosen?
    case Acquire(w) => w < |s.workers| && s.workers[w].phase.Carry? && s.workers[w].phase.n < |s.place|
                       && (s.inFlightCap > 0 ==> Sem(s, s.workers[w].phase.dep) < s.inFlightCap)
    case Abandon(w) => w < |s.workers| && s.workers[w].phase.Carry? && s.workers[w].phase.n < |s.place|
                       && s.inFlightCap > 0 && s.cancelled
    case Finish(w) => w < |s.workers| && s.workers[w].phase.Running? && s.workers[w].phase.n < |s.place|
  }

  function Step(s: State, a: Action): State {
    if !Enabled(s, a) then s else
    match a
    case Submit(e) => DoSubmit(s, e)
    case Push(i) => DoPush(s, i)
    case CloseLane(l) => s.(laneClosed := s.laneClosed + {l})
    case CloseQueue(k) => s.(queueClosed := s.queueClosed + {k})
    case CancelRoot => s.(cancelled := true)
    case Begin(w) => DoBegin(s, w)
    case Read(w, t) => DoRead(s, w, t)
    case EndScan(w, t) => DoEndScan(s, w, t)
    case Pop(w) => DoPop(s, w)
    case Acquire(w) =>
      var p := s.workers[w].phase;
      SetWorker(s, w, s.workers[w].(phase := Running(p.n, p.dep)))
      .(place := s.place[p.n := Handler(w)],
        sems := if s.inFlightCap == 0 then s.sems else s.sems[p.dep := Sem(s, p.dep) + 1])
    case Abandon(w) =>
      SetWorker(s, w, s.workers[w].(phase := Top)).(place := s.place[s.workers[w].phase.n := Abandoned])
    case Finish(w) =>
      var p := s.workers[w].phase;
      SetWorker(s, w, s.workers[w].(phase := Top))
      .(place := s.place[p.n := Finished],
        sems := if s.inFlightCap == 0 || Sem(s, p.dep) == 0 then s.sems else s.sems[p.dep := Sem(s, p.dep) - 1])
  }

  function Exec(s: State, run: seq<Action>): State
    decreases |run|
  {
    if run == [] then s else Exec(Step(s, run[0]), run[1..])
  }

  // ----- Invariants -------------------------------------------------------

  predicate Increasing(log: seq<nat>) {
    forall i, j :: 0 <= i < j < |log| ==> log[i] < log[j]
  }

  /** The entries accepted for a key, in acceptance order. */
  ghost predicate LogFor(log: seq<nat>, accepted: seq<Entry>, k: Key) {
    && Increasing(log)
    && forall n :: n in log <==> 0 <= n < |accepted| && KeyOf(accepted[n]) == k
  }

  /** Popped entries then queued ones make up the key's log. */
  ghost predicate LogOk(s: State, k: Key) {
    LogFor(P(s, k) + Q(s, k), s.accepted, k) && |Q(s, k)| <= Cap(s, k.0)
  }

  ghost predicate Logs(s: State) {
    && (forall k: Key :: LogOk(s, k))
    && (forall n :: 0 <= n < |s.accepted| ==> KeyOf(s.accepted[n]) in s.queues)
    && forall i :: 0 <= i < |s.pushing| ==> KeyOf(s.pushing[i]) in s.queues
  }

  predicate PlaceOk(s: State, n: nat)
    requires n < |s.place| == |s.accepted|
  {
    && (s.place[n] == Queued <==> n in Q(s, KeyOf(s.accepted[n])))
    && (s.place[n].Hands? ==> s.place[n].w < |s.workers| && s.workers[s.place[n].w].phase == Carry(n, s.accepted[n].deployment))
    && (s.place[n].Handler? ==> s.place[n].w < |s.workers| && s.workers[s.place[n].w].phase == Running(n, s.accepted[n].deployment))
  }

  predicate HoldsOk(s: State, w: nat)
    requires w < |s.workers|
  {
    var p := s.workers[w].phase;
    && (p.Carry? ==> p.n < |s.place| && s.place[p.n] == Hands(w))
    && (p.Running? ==> p.n < |s.place| && s.place[p.n] == Handler(w))
  }

  predicate Places(s: State) {
    && |s.place| == |s.accepted|
    && (forall n :: 0 <= n < |s.place| ==> PlaceOk(s, n))
    && forall w :: 0 <= w < |s.workers| ==> HoldsOk(s, w)
  }

  function Occupies(d: string): Worker -> int {
    (k: Worker) => if k.phase.Running? && k.phase.dep == d then 1 else 0
  }

  /** With a cap, the slots taken for a deployment are its running handlers. */
  ghost predicate Slots(s: State) {
    if s.inFlightCap == 0 then s.sems == map[]
    else forall d :: Sem(s, d) == SumOf(s.workers, Occupies(d)) && Sem(s, d) <= s.inFlightCap
  }

  ghost predicate Inv(s: State) {
    Logs(s) && Places(s) && Slots(s)
  }

  lemma InitInv(s: State)
    requires Init(s)
    ensures Inv(s)
  {
    forall d
      ensures SumOf(s.workers, Occupies(d)) == 0
    {
      SumZero(s.workers, Occupies(d));
    }
  }

  /** The worker that takes a step. */
  function Actor(a: Action): Option<nat> {
    match a
    case Begin(w) => Some(w)
    case Read(w, _) => Some(w)
    case EndScan(w, _) => Some(w)
    case Pop(w) => Some(w)
    case Acquire(w) => Some(w)
    case Abandon(w) => Some(w)
    case Finish(w) => Some(w)
    case _ => None
  }

  lemma OthersStay(s: State, a: Action, w: nat)
    requires w < |s.workers| && Actor(a) != Some(w)
    ensures |Step(s, a).workers| == |s.workers| && Step(s, a).workers[w] == s.workers[w]
  {
  }

  // ----- Conservation over whole runs -------------------------------------

  function Holding(n: nat): Worker -> int {
    (k: Worker) => if Busy(k.phase) && k.phase.n == n then 1 else 0
  }

  function Count(b: bool): int { if b then 1 else 0 }

  /** With a cap set, a deployment's slots taken are exactly its handlers
      running, and never more than the cap. */
  lemma InFlightBounded(s: State, run: seq<Action>, d: string)
    requires Init(s) && s.inFlightCap > 0
    ensures var e := Exec(s, run);
            Sem(e, d) == SumOf(e.workers, Occupies(d)) <= s.inFlightCap
  {
    InitInv(s);
    ExecKeepsInv(s, run);
    ExecKeepsCap(s, run);
  }

  /** Conservation: in every reachable state an accepted entry is in exactly one
      place, counting its own sub-queue, every worker's hands or handler call,
      and the finished and abandoned classes; and it is in nobody else's
      sub-queue. */
  lemma EntriesConserved(s: State, run: seq<Action>, n: nat)
    requires Init(s) && n < |Exec(s, run).accepted|
    ensures var e := Exec(s, run);
            && |e.place| == |e.accepted|
            && Count(n in Q(e, KeyOf(e.accepted[n]))) + SumOf(e.workers, Holding(n))
               + Count(e.place[n] == Finished) + Count(e.place[n] == Abandoned) == 1
            && forall k :: n in Q(e, k) ==> k == KeyOf(e.accepted[n])
  {
    InitInv(s);
    ExecKeepsInv(s, run);
    var e := Exec(s, run);
    HolderCount(e, n);
    assert PlaceOk(e, n);
    forall k | n in Q(e, k)
      ensures k == KeyOf(e.accepted[n])
    {
      assert LogOk(e, k) && n in P(e, k) + Q(e, k);
    }
  }

  /** Pops of one (lane, tenant) follow acceptance order, a sub-queue lists what
      is left in that order, and it never exceeds its cap. */
  lemma FifoPerTenant(s: State, run: seq<Action>, earlier: nat, later: nat)
    requires Init(s) && earlier < later < |Exec(s, run).accepted|
    requires KeyOf(Exec(s, run).accepted[earlier]) == KeyOf(Exec(s, run).accepted[later])
    ensures var e := Exec(s, run);
            var k := KeyOf(e.accepted[later]);
            && (later in P(e, k) ==> earlier in P(e, k))
            && Increasing(P(e, k)) && Increasing(Q(e, k))
            && |Q(e, k)| <= (if k.0 == Interactive then e.capI else e.capB)
  {
    InitInv(s);
    ExecKeepsInv(s, run);
    var e := Exec(s, run);
    var k := KeyOf(e.accepted[later]);
    assert LogOk(e, k);
    assert earlier in P(e, k) + Q(e, k);
    SplitLog(P(e, k), Q(e, k), earlier, later);
  }

  lemma HolderCount(s: State, n: nat)
    requires Inv(s) && n < |s.place|
    ensures SumOf(s.workers, Holding(n)) == Count(s.place[n].Hands? || s.place[n].Handler?)
  {
    assert PlaceOk(s, n);
    forall v | 0 <= v < |s.workers|
      ensures Holding(n)(s.workers[v]) == Count(s.place[n] == Hands(v) || s.place[n] == Handler(v))
    {
      assert HoldsOk(s, v);
    }
    if s.place[n].Hands? || s.place[n].Handler? {
      SumOnly(s.workers, s.place[n].w, Holding(n));
    } else {
      SumZero(s.workers, Holding(n));
    }
  }

  lemma SplitLog(p: seq<nat>, q: seq<nat>, earlier: nat, later: nat)
    requires Increasing(p + q) && earlier in p + q && earlier < later
    ensures Increasing(p) && Increasing(q)
    ensures later in p ==> earlier in p
  {
    var log := p + q;
    var i :| 0 <= i < |log| && log[i] == earlier;
    if later in p {
      var j :| 0 <= j < |p| && p[j] == later;
      assert log[j] == later;
      assert p[i] == earlier;
    }
    forall x, y | 0 <= x < y < |q|
      ensures q[x] < q[y]
    {
      assert log[|p| + x] == q[x] && log[|p| + y] == q[y];
    }
    forall x, y | 0 <= x < y < |p|
      ensures p[x] < p[y]
    {
      assert log[x] == p[x] && log[y] == p[y];
    }
  }

  lemma {:induction false} ExecKeepsCap(s: State, run: seq<Action>)
    ensures Exec(s, run).inFlightCap == s.inFlightCap && Exec(s, run).capI == s.capI && |Exec(s, run).workers| == |s.workers|
    decreases |run|
  {
    if run != [] {
      StepKeepsCap(s, run[0]);
      ExecKeepsCap(Step(s, run[0]), run[1..]);
    }
  }

  /** Everything that is fixed when the scheduler starts. */
  predicate SameShape(s: State, s': State) {
    s'.inFlightCap == s.inFlightCap && s'.capI == s.capI && |s'.workers| == |s.workers|
  }

  lemma PopKeepsShape(s: State, w: nat)
    requires w < |s.workers| && s.workers[w].phase.Chosen?
    ensures SameShape(s, DoPop(s, w))
  {
  }

  lemma StepKeepsCap(s: State, a: Action)
    ensures SameShape(s, Step(s, a))
  {
    if Enabled(s, a) {
      match a {
        case Push(i) => assert SameShape(s, DoPush(s, i));
        case Begin(w) => assert SameShape(s, DoBegin(s, w));
        case Read(w, t) => assert SameShape(s, DoRead(s, w, t));
        case EndScan(w, t) => assert SameShape(s, DoEndScan(s, w, t));
        case Pop(w) => PopKeepsShape(s, w);
        case _ =>
      }
    }
  }

  // ----- Conservation, step by step ---------------------------------------

  predicate Busy(p: Phase) { p.Carry? || p.Running? }

  lemma SlotsSetWorker(s: State, w: nat, k: Worker)
    requires Slots(s) && w < |s.workers|
    requires forall d :: Occupies(d)(k) == Occupies(d)(s.workers[w])
    ensures Slots(SetWorker(s, w, k))
  {
    forall d
      ensures SumOf(SetWorker(s, w, k).workers, Occupies(d)) == SumOf(s.workers, Occupies(d))
    {
      SumUpdate(s.workers, w, k, Occupies(d));
    }
  }

  /** A worker moving between polling phases disturbs nothing. */
  lemma PollingKeepsInv(s: State, w: nat, k: Worker)
    requires Inv(s) && w < |s.workers| && !Busy(s.workers[w].phase) && !Busy(k.phase)
    ensures Inv(SetWorker(s, w, k))
  {
    SlotsSetWorker(s, w, k);
    var s' := SetWorker(s, w, k);
    forall k | LogOk(s, k)
      ensures LogOk(s', k)
    {
    }
    forall n | 0 <= n < |s'.place|
      ensures PlaceOk(s', n)
    {
      assert PlaceOk(s, n);
    }
    forall v | 0 <= v < |s'.workers|
      ensures HoldsOk(s', v)
    {
      assert HoldsOk(s, v);
    }
  }

  lemma SubmitKeepsInv(s: State, e: Entry)
    requires Inv(s)
    ensures Inv(DoSubmit(s, e))
  {
    var s' := DoSubmit(s, e);
    forall k: Key
      ensures LogOk(s', k)
    {
      assert LogOk(s, k) && Q(s', k) == Q(s, k) && P(s', k) == P(s, k);
    }
    forall n | 0 <= n < |s'.place|
      ensures PlaceOk(s', n)
    {
      assert PlaceOk(s, n);
    }
    forall w | 0 <= w < |s'.workers|
      ensures HoldsOk(s', w)
    {
      assert HoldsOk(s, w);
    }
  }

  /** The log of one key when an entry is accepted. */
  lemma LogGrows(log: seq<nat>, accepted: seq<Entry>, e: Entry, k: Key)
    requires LogFor(log, accepted, k)
    ensures LogFor(if KeyOf(e) == k then log + [|accepted|] else log, accepted + [e], k)
  {
    assert forall j :: 0 <= j < |log| ==> log[j] in log;
  }

  /** The sub-queue takes the entry. */
  predicate Takes(s: State, e: Entry) { KeyOf(e) !in s.queueClosed && |Q(s, KeyOf(e))| < Cap(s, e.lane) }

  lemma PushQueues(s: State, i: nat, k: Key)
    requires i < |s.pushing|
    ensures var s', e := DoPush(s, i), s.pushing[i];
            && P(s', k) == P(s, k) && s'.capI == s.capI && s'.capB == s.capB
            && Q(s', k) == (if Takes(s, e) && k == KeyOf(e) then Q(s, k) + [|s.accepted|] else Q(s, k))
            && s'.accepted == (if Takes(s, e) then s.accepted + [e] else s.accepted)
  {
  }

  lemma PushLogFor(log: seq<nat>, p: seq<nat>, q: seq<nat>, accepted: seq<Entry>, e: Entry, k: Key)
    requires log == p + q && LogFor(log, accepted, k)
    ensures LogFor(p + if k == KeyOf(e) then q + [|accepted|] else q, accepted + [e], k)
  {
    LogGrows(log, accepted, e, k);
    assert p + (q + [|accepted|]) == log + [|accepted|];
  }

  lemma PushLog(s: State, i: nat, k: Key)
    requires LogOk(s, k) && i < |s.pushing|
    ensures LogOk(DoPush(s, i), k)
  {
    PushQueues(s, i, k);
    if Takes(s, s.pushing[i]) {
      PushLogFor(P(s, k) + Q(s, k), P(s, k), Q(s, k), s.accepted, s.pushing[i], k);
    }
  }

  lemma PushPlaces(s: State, i: nat)
    requires Inv(s) && i < |s.pushing|
    ensures Places(DoPush(s, i))
  {
    var s' := DoPush(s, i);
    forall n | 0 <= n < |s'.place|
      ensures PlaceOk(s', n)
    {
      if n < |s.place| {
        assert PlaceOk(s, n);
        PushQueues(s, i, KeyOf(s.accepted[n]));
      } else {
        PushQueues(s, i, KeyOf(s.pushing[i]));
        assert Q(s', KeyOf(s.pushing[i]))[|Q(s, KeyOf(s.pushing[i]))|] == n;
      }
    }
    forall w | 0 <= w < |s'.workers|
      ensures HoldsOk(s', w)
    {
      assert HoldsOk(s, w);
    }
  }

  lemma PushKeepsInv(s: State, i: nat)
    requires Inv(s) && i < |s.pushing|
    ensures Inv(DoPush(s, i))
  {
    var s' := DoPush(s, i);
    forall k: Key
      ensures LogOk(s', k)
    {
      PushLog(s, i, k);
    }
    PushPlaces(s, i);
    assert s'.workers == s.workers && s'.sems == s.sems;
  }

  lemma PopLog(s: State, w: nat, k: Key)
    requires Inv(s) && w < |s.workers| && s.workers[w].phase.Chosen?
    ensures LogOk(DoPop(s, w), k)
  {
    var s' := DoPop(s, w);
    assert LogOk(s, k);
    assert P(s', k) + Q(s', k) == P(s, k) + Q(s, k);
  }

  /** The head of a non-empty sub-queue is an accepted entry of that key. */
  lemma HeadOk(s: State, k: Key)
    requires Inv(s) && Q(s, k) != []
    ensures var n := Q(s, k)[0];
            n < |s.accepted| && KeyOf(s.accepted[n]) == k && s.place[n] == Queued && n !in Q(s, k)[1..]
  {
    assert LogOk(s, k);
    var log, n := P(s, k) + Q(s, k), Q(s, k)[0];
    assert log[|P(s, k)|] == n;
    assert n in log;
    assert PlaceOk(s, n);
    forall j | 0 <= j < |Q(s, k)[1..]|
      ensures Q(s, k)[1..][j] != n
    {
      assert log[|P(s, k)| + 1 + j] == Q(s, k)[1..][j];
    }
  }

  lemma PopKeepsInv(s: State, w: nat)
    requires Inv(s) && w < |s.workers| && s.workers[w].phase.Chosen?
    ensures Inv(DoPop(s, w))
  {
    var key := (s.workers[w].phase.lane, s.workers[w].phase.t);
    var s' := DoPop(s, w);
    if Q(s, key) == [] {
      PollingKeepsInv(s, w, s'.workers[w]);
    } else {
      HeadOk(s, key);
      SlotsSetWorker(s, w, s'.workers[w]);
      forall k: Key
        ensures LogOk(s', k)
      {
        PopLog(s, w, k);
      }
      PopPlaces(s, w);
    }
  }

  lemma PopPlaces(s: State, w: nat)
    requires Inv(s) && w < |s.workers| && s.workers[w].phase.Chosen?
    requires Q(s, (s.workers[w].phase.lane, s.workers[w].phase.t)) != []
    ensures Places(DoPop(s, w))
  {
    var key := (s.workers[w].phase.lane, s.workers[w].phase.t);
    HeadOk(s, key);
    var s', q := DoPop(s, w), Q(s, key);
    forall n | 0 <= n < |s'.place|
      ensures PlaceOk(s', n)
    {
      assert PlaceOk(s, n);
      assert n != q[0] ==> (n in q <==> n in q[1..]);
    }
    forall v | 0 <= v < |s'.workers|
      ensures HoldsOk(s', v)
    {
      assert HoldsOk(s, v);
    }
  }

  /** A worker taking its entry on from hands to handler to finished, or giving
      it up, moves that entry and no other. */
  lemma CarryKeepsPlaces(s: State, s': State, w: nat, n: nat, p: Place)
    requires Places(s) && w < |s.workers| && Busy(s.workers[w].phase) && s.workers[w].phase.n == n < |s.place|
    requires s'.accepted == s.accepted && s'.queues == s.queues && s'.place == s.place[n := p]
    requires |s'.workers| == |s.workers| && forall v :: 0 <= v < |s.workers| && v != w ==> s'.workers[v] == s.workers[v]
    requires p == Finished || p == Abandoned || (p == Handler(w) && s'.workers[w].phase == Running(n, s.workers[w].phase.dep))
    requires p != Handler(w) ==> !Busy(s'.workers[w].phase)
    ensures Places(s')
  {
    assert HoldsOk(s, w) && PlaceOk(s, n);
    forall m | 0 <= m < |s'.place|
      ensures PlaceOk(s', m)
    {
      assert PlaceOk(s, m);
    }
    forall v | 0 <= v < |s'.workers|
      ensures HoldsOk(s', v)
    {
      assert HoldsOk(s, v);
    }
  }

  lemma LogsDependOn(s: State, s': State)
    requires Logs(s)
    requires s'.queues == s.queues && s'.popped == s.popped && s'.accepted == s.accepted && s'.pushing == s.pushing
    requires s'.capI == s.capI && s'.capB == s.capB
    ensures Logs(s')
  {
    forall k: Key
      ensures LogOk(s', k)
    {
      assert LogOk(s, k);
    }
  }

  lemma AcquireKeepsInv(s: State, w: nat)
    requires Inv(s) && Enabled(s, Acquire(w))
    ensures Inv(Step(s, Acquire(w)))
  {
    var s' := Step(s, Acquire(w));
    var p := s.workers[w].phase;
    LogsDependOn(s, s');
    CarryKeepsPlaces(s, s', w, p.n, Handler(w));
    forall d
      ensures s.inFlightCap > 0 ==> Sem(s', d) == SumOf(s'.workers, Occupies(d)) && Sem(s', d) <= s.inFlightCap
    {
      SumUpdate(s.workers, w, s'.workers[w], Occupies(d));
    }
  }

  lemma FinishKeepsInv(s: State, w: nat)
    requires Inv(s) && Enabled(s, Finish(w))
    ensures Inv(Step(s, Finish(w)))
  {
    var s' := Step(s, Finish(w));
    var p := s.workers[w].phase;
    LogsDependOn(s, s');
    CarryKeepsPlaces(s, s', w, p.n, Finished);
    SumAtLeast(s.workers, w, Occupies(p.dep));
    forall d
      ensures s.inFlightCap > 0 ==> Sem(s', d) == SumOf(s'.workers, Occupies(d)) && Sem(s', d) <= s.inFlightCap
    {
      SumUpdate(s.workers, w, s'.workers[w], Occupies(d));
    }
  }

  lemma AbandonKeepsInv(s: State, w: nat)
    requires Inv(s) && Enabled(s, Abandon(w))
    ensures Inv(Step(s, Abandon(w)))
  {
    var s' := Step(s, Abandon(w));
    LogsDependOn(s, s');
    CarryKeepsPlaces(s, s', w, s.workers[w].phase.n, Abandoned);
    SlotsSetWorker(s, w, s'.workers[w]);
  }

  lemma ShutdownKeepsInv(s: State, s': State)
    requires Inv(s)
    requires s' == s.(laneClosed := s'.laneClosed, queueClosed := s'.queueClosed, cancelled := s'.cancelled)
    ensures Inv(s')
  {
    LogsDependOn(s, s');
    forall n | 0 <= n < |s'.place|
      ensures PlaceOk(s', n)
    {
      assert PlaceOk(s, n);
    }
    forall v | 0 <= v < |s'.workers|
      ensures HoldsOk(s', v)
    {
      assert HoldsOk(s, v);
    }
    forall d
      ensures Sem(s', d) == Sem(s, d)
    {
    }
  }

  lemma StepKeepsInv(s: State, a: Action)
    requires Inv(s)
    ensures Inv(Step(s, a))
  {
    if Enabled(s, a) {
      var s' := Step(s, a);
      match a {
        case Submit(e) => SubmitKeepsInv(s, e);
        case Push(i) => PushKeepsInv(s, i);
        case CloseLane(_) => ShutdownKeepsInv(s, s');
        case CloseQueue(_) => ShutdownKeepsInv(s, s');
        case CancelRoot => ShutdownKeepsInv(s, s');
        case Begin(w) => PollingKeepsInv(s, w, s'.workers[w]);
        case Read(w, _) => PollingKeepsInv(s, w, s'.workers[w]);
        case EndScan(w, _) => PollingKeepsInv(s, w, s'.workers[w]);
        case Pop(w) => PopKeepsInv(s, w);
        case Acquire(w) => AcquireKeepsInv(s, w);
        case Abandon(w) => AbandonKeepsInv(s, w);
        case Finish(w) => FinishKeepsInv(s, w);
      }
    }
  }

  lemma {:induction false} ExecKeepsInv(s: State, run: seq<Action>)
    requires Inv(s)
    ensures Inv(Exec(s, run))
    decreases |run|
  {
    if run != [] {
      StepKeepsInv(s, run[0]);
      ExecKeepsInv(Step(s, run[0]), run[1..]);
    }
  }
}
