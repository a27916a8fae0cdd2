/** What the InteractiveFirst scheduler gets done (internal/scheduler): an entry offered
    to an open lane with room is accepted, a worker that starts a round takes an entry
    when there is one, and an entry taken is handled when its deployment has a slot. */
module WorkConserving {
  import opened Common
  import opened Dispatch
  import opened Priority
  import opened Shutdown

  // ----- Offering an entry ------------------------------------------------

  /** The lane's check: a closed lane refuses at once; otherwise the entry is on its
      way to its tenant's sub-queue. */
  lemma SubmitTable(s: State, e: Entry)
    ensures e.lane in s.laneClosed ==> Step(s, Submit(e)) == s
    ensures e.lane !in s.laneClosed ==>
              var s' := Step(s, Submit(e));
              && s'.pushing == s.pushing + [e] && s' == s.(queues := s'.queues, pushing := s'.pushing)
              && forall k :: Q(s', k) == Q(s, k)
  {
  }

  /** The sub-queue's: accepted at its end unless it is closed or holds as many entries
      as the lane's cap allows per tenant. */
  lemma PushTable(s: State, i: nat)
    requires i < |s.pushing|
    ensures var e, s' := s.pushing[i], Step(s, Push(i));
            var k := (e.lane, e.tenant);
            var cap := if e.lane == Interactive then s.capI else s.capB;
            && s'.pushing == s.pushing[..i] + s.pushing[i + 1..]
            && (k !in s.queueClosed && |Q(s, k)| < cap ==>
                 && s'.accepted == s.accepted + [e] && s'.place == s.place + [Queued]
                 && Q(s', k) == Q(s, k) + [|s.accepted|])
            && (k in s.queueClosed || |Q(s, k)| >= cap ==>
                 s'.accepted == s.accepted && s'.place == s.place && s'.queues == s.queues)
  {
  }

  // ----- Handling an entry ------------------------------------------------

  /** A worker with an entry in hand goes on exactly when there is no cap or the
      deployment has a slot left, and takes it; it gives the entry up exactly when it
      has to wait for one and the root context is cancelled. */
  lemma AcquireTable(s: State, w: nat)
    requires Inv(s) && w < |s.workers| && s.workers[w].phase.Carry?
    ensures var n, d := s.workers[w].phase.n, s.workers[w].phase.dep;
            var s' := Step(s, Acquire(w));
            && (Enabled(s, Acquire(w)) <==> s.inFlightCap == 0 || Sem(s, d) < s.inFlightCap)
            && (Enabled(s, Abandon(w)) <==> s.inFlightCap > 0 && s.cancelled)
            && (Enabled(s, Acquire(w)) ==>
                 && s'.workers == s.workers[w := s.workers[w].(phase := Running(n, d))] && s'.place == s.place[n := Handler(w)]
                 && Sem(s', d) == Sem(s, d) + (if s.inFlightCap == 0 then 0 else 1))
  {
    assert HoldsOk(s, w);
  }

  /** When the handler returns the entry is finished, the slot is free again and the
      worker starts its next round. */
  lemma FinishTable(s: State, w: nat)
    requires Inv(s) && w < |s.workers| && s.workers[w].phase.Running?
    ensures var n, d := s.workers[w].phase.n, s.workers[w].phase.dep;
            var s' := Step(s, Finish(w));
            && s'.workers == s.workers[w := s.workers[w].(phase := Top)] && s'.place == s.place[n := Finished]
            && Sem(s', d) == (if s.inFlightCap == 0 then Sem(s, d) else Sem(s, d) - 1)
  {
    assert HoldsOk(s, w);
    SumAtLeast(s.workers, w, Occupies(s.workers[w].phase.dep));
  }

  // ----- The ends of a round ----------------------------------------------

  /** A worker about to start a round returns when the root context is cancelled or it
      has marked both lanes closed, and only then. */
  lemma BeginTable(s: State, w: nat)
    requires w < |s.workers| && s.workers[w].phase == Top
    ensures |Step(s, Begin(w)).workers| == |s.workers|
    ensures Step(s, Begin(w)).workers[w].phase == Exited <==> s.cancelled || (!s.workers[w].iOpen && !s.workers[w].bOpen)
    ensures Step(s, CancelRoot) == s.(cancelled := true)
  {
  }

  /** A round that found nothing in the batch lane either: the worker marks the batch
      lane closed when it was closed at the scan, returns when both are marked, and
      otherwise starts over. */
  lemma BatchMissTable(s: State, w: nat)
    requires w < |s.workers| && s.workers[w].phase.Scan? && s.workers[w].phase.lane == Batch
    requires s.workers[w].phase.todo == {} && s.workers[w].phase.seen == map[]
    ensures |Step(s, EndScan(w, "")).workers| == |s.workers|
    ensures var k, k' := s.workers[w], Step(s, EndScan(w, "")).workers[w];
            && k'.iOpen == k.iOpen && k'.bOpen == (k.bOpen && !k.phase.wasClosed)
            && k'.phase == (if k'.iOpen || k'.bOpen then Top else Exited)
  {
  }

  /** The same after a lost race for a batch entry. */
  lemma BatchRaceTable(s: State, w: nat)
    requires w < |s.workers| && s.workers[w].phase.Chosen? && s.workers[w].phase.lane == Batch
    requires Q(s, (Batch, s.workers[w].phase.t)) == []
    ensures |Step(s, Pop(w)).workers| == |s.workers|
    ensures var k, k' := s.workers[w], Step(s, Pop(w)).workers[w];
            && k'.iOpen == k.iOpen && k'.bOpen == (k.bOpen && (Batch, k.phase.t) !in s.queueClosed)
            && k'.phase == (if k'.iOpen || k'.bOpen then Top else Exited)
  {
  }

  // ----- Taking an entry --------------------------------------------------

  /** What the worker does after its round has begun: read, finish a scan, pop. */
  predicate OwnScan(run: seq<Action>, w: nat) {
    forall i :: 0 <= i < |run| ==> Actor(run[i]) == Some(w) && (run[i].Read? || run[i].EndScan? || run[i].Pop?)
  }

  /** One round of the worker, and nobody else's steps. */
  predicate OwnRound(run: seq<Action>, w: nat) {
    run != [] && run[0] == Begin(w) && OwnScan(run[1..], w)
  }

  /** The worker has the entry in its hands. */
  predicate Holds(s: State, w: nat, n: nat) {
    w < |s.workers| && s.workers[w].phase.Carry? && s.workers[w].phase.n == n && n < |s.place| && s.place[n] == Hands(w)
  }

  /** A scan that has read every tenant: those with entries have been seen. */
  ghost predicate AllRead(s: State, w: nat, seen: map<string, nat>, k: Worker) {
    && w < |s.workers| && s.workers[w].phase.Scan? && k.phase.Scan?
    && k == s.workers[w].(phase := s.workers[w].phase.(todo := {}, seen := seen))
    && forall t :: t in seen <==>
         t in s.workers[w].phase.seen || (t in s.workers[w].phase.todo && Q(s, (s.workers[w].phase.lane, t)) != [])
  }

  /** The worker after reading one tenant. */
  function AfterRead(s: State, w: nat, t: string): Worker
    requires w < |s.workers| && s.workers[w].phase.Scan?
  {
    var k := s.workers[w];
    var key := (k.phase.lane, t);
    k.(phase := k.phase.(todo := k.phase.todo - {t},
                         seen := if Q(s, key) == [] then k.phase.seen else k.phase.seen[t := |P(s, key)|]))
  }

  lemma ReadIs(s: State, w: nat, t: string)
    requires w < |s.workers| && s.workers[w].phase.Scan? && t in s.workers[w].phase.todo
    ensures Step(s, Read(w, t)) == SetWorker(s, w, AfterRead(s, w, t))
  {
  }

  /** Reading one tenant and then all the others is reading all. */
  lemma AllReadStep(s: State, w: nat, t: string, k: Worker)
    requires w < |s.workers| && s.workers[w].phase.Scan? && t in s.workers[w].phase.todo && k.phase.Scan?
    requires AllRead(SetWorker(s, w, AfterRead(s, w, t)), w, k.phase.seen, k)
    ensures AllRead(s, w, k.phase.seen, k)
  {
    var s1 := SetWorker(s, w, AfterRead(s, w, t));
    assert forall key :: Q(s1, key) == Q(s, key);
  }

  lemma OwnFirst(w: nat, t: string, rest: seq<Action>)
    requires OwnScan(rest, w)
    ensures OwnScan([Read(w, t)] + rest, w)
  {
  }

  lemma ExecFirst(s: State, a: Action, rest: seq<Action>)
    ensures Exec(s, [a] + rest) == Exec(Step(s, a), rest)
  {
    assert ([a] + rest)[1..] == rest;
  }

  lemma {:induction false} ReadsAll(s: State, w: nat) returns (run: seq<Action>, k: Worker)
    requires w < |s.workers| && s.workers[w].phase.Scan?
    ensures OwnScan(run, w) && k.phase.Scan? && AllRead(s, w, k.phase.seen, k) && Exec(s, run) == SetWorker(s, w, k)
    decreases |s.workers[w].phase.todo|
  {
    if s.workers[w].phase.todo == {} {
      run, k := [], s.workers[w];
      assert SetWorker(s, w, k) == s;
    } else {
      var t :| t in s.workers[w].phase.todo;
      var s1 := SetWorker(s, w, AfterRead(s, w, t));
      ReadIs(s, w, t);
      var rest, k1 := ReadsAll(s1, w);
      AllReadStep(s, w, t, k1);
      SetTwice(s, w, AfterRead(s, w, t), k1);
      ExecFirst(s, Read(w, t), rest);
      OwnFirst(w, t, rest);
      run, k := [Read(w, t)] + rest, k1;
    }
  }

  /** From the start of a scan of a lane where the tenant has an entry: read all, pick
      the tenant, pop its head. */
  lemma TakesFrom(s: State, w: nat, l: LaneName, t: string) returns (run: seq<Action>)
    requires Inv(s) && w < |s.workers| && s.workers[w].phase.Scan? && s.workers[w].phase.lane == l
    requires s.workers[w].phase.todo == TenantsOf(s, l) && s.workers[w].phase.seen == map[] && Q(s, (l, t)) != []
    ensures OwnScan(run, w) && Holds(Exec(s, run), w, Q(s, (l, t))[0])
  {
    var scan, k := ReadsAll(s, w);
    var s1 := SetWorker(s, w, k);
    assert (l, t) in s.queues;
    assert t in TenantsOf(s, l) && t in k.phase.seen;
    PicksSeen(s1, w, t);
    var chosen := Chosen(l, t, k.phase.seen[t], k.phase.mark, k.phase.tried);
    var s2 := SetWorker(s1, w, k.(phase := chosen));
    SetTwice(s, w, k, k.(phase := chosen));
    HeadOk(s, (l, t));
    PopsHead(s2, w, l, t);
    var ends := [EndScan(w, t), Pop(w)];
    assert ends[1..] == [Pop(w)] && |[Pop(w)][1..]| == 0;
    assert Exec(s2, [Pop(w)]) == Step(s2, Pop(w));
    ExecConcat(s, scan, ends);
    run := scan + ends;
  }

  lemma PicksSeen(s: State, w: nat, t: string)
    requires w < |s.workers| && s.workers[w].phase.Scan? && s.workers[w].phase.todo == {} && t in s.workers[w].phase.seen
    ensures var k := s.workers[w];
            Step(s, EndScan(w, t))
            == SetWorker(s, w, k.(phase := Chosen(k.phase.lane, t, k.phase.seen[t], k.phase.mark, k.phase.tried)))
  {
  }

  lemma PopsHead(s: State, w: nat, l: LaneName, t: string)
    requires w < |s.workers| && s.workers[w].phase.Chosen? && s.workers[w].phase.lane == l && s.workers[w].phase.t == t
    requires Q(s, (l, t)) != [] && Q(s, (l, t))[0] < |s.accepted| == |s.place|
    ensures Holds(Step(s, Pop(w)), w, Q(s, (l, t))[0])
  {
  }

  /** A scan of the interactive lane that finds nothing goes on to scan the batch lane
      in the same round. */
  lemma GoesOnToBatch(s: State, w: nat) returns (run: seq<Action>)
    requires w < |s.workers| && s.workers[w].phase.Scan? && s.workers[w].phase.lane == Interactive && s.workers[w].bOpen
    requires s.workers[w].phase.seen == map[] && !InteractiveQueued(s)
    ensures OwnScan(run, w)
    ensures var e := Exec(s, run);
            && e == s.(workers := e.workers) && |e.workers| == |s.workers| && e.workers[w].phase.Scan?
            && e.workers[w].phase.lane == Batch && e.workers[w].phase.todo == TenantsOf(s, Batch) && e.workers[w].phase.seen == map[]
  {
    var scan, k := ReadsAll(s, w);
    var s1 := SetWorker(s, w, k);
    forall t
      ensures t !in k.phase.seen
    {
      assert Q(s, (Interactive, t)) == [];
    }
    assert k.phase.seen == map[];
    assert TenantsOf(s1, Batch) == TenantsOf(s, Batch);
    var end := [EndScan(w, "")];
    assert |end[1..]| == 0;
    assert Exec(s1, end) == Step(s1, EndScan(w, ""));
    ExecConcat(s, scan, end);
    run := scan + end;
  }

  lemma Begins(s: State, w: nat)
    requires w < |s.workers| && s.workers[w].phase == Top && !s.cancelled && (s.workers[w].iOpen || s.workers[w].bOpen)
    ensures var e := Step(s, Begin(w));
            var l := if s.workers[w].iOpen then Interactive else Batch;
            && e == s.(workers := e.workers) && |e.workers| == |s.workers| && e.workers[w].phase.Scan?
            && e.workers[w].phase.lane == l && e.workers[w].phase.todo == TenantsOf(s, l) && e.workers[w].phase.seen == map[]
            && e.workers[w].iOpen == s.workers[w].iOpen && e.workers[w].bOpen == s.workers[w].bOpen
            && e == SetWorker(s, w, e.workers[w])
  {
  }

  lemma WorkersOnly(s: State, e: State, w: nat, l: LaneName)
    requires e == s.(workers := e.workers)
    ensures TenantsOf(e, l) == TenantsOf(s, l) && (forall k :: Q(e, k) == Q(s, k) && P(e, k) == P(s, k))
  {
  }

  /** Work conservation, interactive lane. In every reachable state a worker about to
      start a round, with the lane open to it and the root context alive, can take any
      tenant's oldest interactive entry in that round by its own steps alone. */
  lemma InteractiveIsTaken(s: State, sofar: seq<Action>, w: nat, t: string) returns (run: seq<Action>)
    requires Init(s)
    requires var e := Exec(s, sofar);
             w < |e.workers| && e.workers[w].phase == Top && e.workers[w].iOpen && !e.cancelled && Q(e, (Interactive, t)) != []
    ensures OwnRound(run, w)
    ensures var e := Exec(s, sofar); Holds(Exec(e, run), w, Q(e, (Interactive, t))[0])
  {
    InitInv(s);
    ExecKeepsInv(s, sofar);
    var e := Exec(s, sofar);
    Begins(e, w);
    var e1 := Step(e, Begin(w));
    StepKeepsInv(e, Begin(w));
    WorkersOnly(e, e1, w, Interactive);
    var rest := TakesFrom(e1, w, Interactive, t);
    run := [Begin(w)] + rest;
    ExecFirst(e, Begin(w), rest);
  }

  /** Work conservation, batch lane: the same when no interactive entry is queued,
      whether or not the interactive lane is open, in one and the same round. */
  lemma BatchIsTaken(s: State, sofar: seq<Action>, w: nat, t: string) returns (run: seq<Action>)
    requires Init(s)
    requires var e := Exec(s, sofar);
             && w < |e.workers| && e.workers[w].phase == Top && e.workers[w].bOpen && !e.cancelled
             && (forall u :: Q(e, (Interactive, u)) == []) && Q(e, (Batch, t)) != []
    ensures OwnRound(run, w)
    ensures var e := Exec(s, sofar); Holds(Exec(e, run), w, Q(e, (Batch, t))[0])
  {
    InitInv(s);
    ExecKeepsInv(s, sofar);
    var e := Exec(s, sofar);
    Begins(e, w);
    var e1 := Step(e, Begin(w));
    StepKeepsInv(e, Begin(w));
    WorkersOnly(e, e1, w, Batch);
    if !e.workers[w].iOpen {
      var rest := TakesFrom(e1, w, Batch, t);
      run := [Begin(w)] + rest;
      ExecFirst(e, Begin(w), rest);
    } else {
      var skip := GoesOnToBatch(e1, w);
      var e2 := Exec(e1, skip);
      ExecKeepsInv(e1, skip);
      WorkersOnly(e1, e2, w, Batch);
      var rest := TakesFrom(e2, w, Batch, t);
      ExecConcat(e1, skip, rest);
      run := [Begin(w)] + (skip + rest);
      ExecFirst(e, Begin(w), skip + rest);
    }
  }
}
