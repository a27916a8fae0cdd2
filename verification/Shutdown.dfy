/** Where strict priority ends: what happens to interactive entries while Stop closes
    the lanes of the InteractiveFirst scheduler (internal/scheduler). A worker that
    takes the interactive lane for closed and drained never looks at it again. */
module Shutdown {
  import opened Common
  import opened Dispatch
  import opened Priority

  // ----- Giving a lane up -------------------------------------------------

  /** Once a worker has marked the interactive lane closed it never reads that
      lane again, whatever is still queued there. */
  predicate GaveUp(k: Worker) {
    !k.iOpen && (k.phase.Scan? || k.phase.Chosen? ==> k.phase.lane == Batch)
  }

  lemma {:induction false} GaveUpForGood(s: State, run: seq<Action>, w: nat)
    requires w < |s.workers| && GaveUp(s.workers[w])
    ensures |Exec(s, run).workers| == |s.workers| && GaveUp(Exec(s, run).workers[w])
    decreases |run|
  {
    if run != [] {
      StepKeepsCap(s, run[0]);
      StaysGivenUp(s, run[0], w);
      GaveUpForGood(Step(s, run[0]), run[1..], w);
    }
  }

  lemma StaysGivenUp(s: State, a: Action, w: nat)
    requires w < |s.workers| == |Step(s, a).workers| && GaveUp(s.workers[w])
    ensures GaveUp(Step(s, a).workers[w])
  {
    if Actor(a) != Some(w) {
      OthersStay(s, a, w);
    } else if Enabled(s, a) {
      match a {
        case Begin(_) => assert Step(s, a) == DoBegin(s, w);
        case Read(_, t) => assert Step(s, a) == DoRead(s, w, t);
        case EndScan(_, t) => assert Step(s, a) == DoEndScan(s, w, t);
        case Pop(_) => assert Step(s, a) == DoPop(s, w);
        case Acquire(_) =>
        case Abandon(_) =>
        case Finish(_) =>
      }
    }
  }

  // ----- Which steps give it up, and what they leave behind ---------------

  ghost predicate InteractiveQueued(s: State) { exists u :: Q(s, (Interactive, u)) != [] }

  /** A Submit has passed the lane's check and its sub-queue is still open. */
  predicate CanLand(s: State) {
    exists i :: 0 <= i < |s.pushing| && s.pushing[i].lane == Interactive && KeyOf(s.pushing[i]) !in s.queueClosed
  }

  ghost predicate WorkLeft(s: State) { InteractiveQueued(s) || CanLand(s) }

  predicate GivesUp(s: State, a: Action, w: nat) {
    w < |s.workers| == |Step(s, a).workers| && s.workers[w].iOpen && !Step(s, a).workers[w].iOpen
  }

  /** The chosen sub-queue turns out closed and empty. */
  predicate FindsClosed(s: State, a: Action, w: nat) {
    && w < |s.workers| && s.workers[w].iOpen && a == Pop(w) && s.workers[w].phase.Chosen? && s.workers[w].phase.lane == Interactive
    && Q(s, (Interactive, s.workers[w].phase.t)) == [] && (Interactive, s.workers[w].phase.t) in s.queueClosed
  }

  /** A scan of the closed lane found every tenant empty. */
  predicate FindsDrained(s: State, a: Action, w: nat) {
    && w < |s.workers| && s.workers[w].iOpen && a.EndScan? && a.w == w && Enabled(s, a)
    && s.workers[w].phase.lane == Interactive && s.workers[w].phase.wasClosed && s.workers[w].phase.seen == map[]
  }

  ghost predicate OtherQueued(s: State, t: string) { exists u :: u != t && Q(s, (Interactive, u)) != [] }

  /** An interactive entry accepted after the scan began is queued. */
  predicate LateArrival(s: State, mark: nat) {
    exists n :: mark <= n < |s.accepted| && n < |s.place| && s.accepted[n].lane == Interactive && s.place[n] == Queued
  }

  lemma GivesUpIff(s: State, a: Action, w: nat)
    requires Inv(s)
    ensures GivesUp(s, a, w) <==> FindsClosed(s, a, w) || FindsDrained(s, a, w)
    ensures GivesUp(s, a, w) ==>
              var s' := Step(s, a);
              s'.queues == s.queues && s'.pushing == s.pushing && s'.queueClosed == s.queueClosed
  {
    StepKeepsCap(s, a);
    if w < |s.workers| {
      if Actor(a) != Some(w) {
        OthersStay(s, a, w);
      } else if Enabled(s, a) && a.Pop? {
        PopGivesUp(s, w);
      }
    }
  }

  lemma PopGivesUp(s: State, w: nat)
    requires Inv(s) && w < |s.workers| && s.workers[w].phase.Chosen?
    ensures |DoPop(s, w).workers| == |s.workers|
    ensures s.workers[w].iOpen && !DoPop(s, w).workers[w].iOpen <==> FindsClosed(s, Pop(w), w)
    ensures FindsClosed(s, Pop(w), w) ==>
              var s' := DoPop(s, w);
              s'.queues == s.queues && s'.pushing == s.pushing && s'.queueClosed == s.queueClosed
  {
    var key := (s.workers[w].phase.lane, s.workers[w].phase.t);
    if Q(s, key) != [] {
      HeadOk(s, key);
    }
  }

  /** After a scan that found nothing, only later arrivals can be queued. */
  lemma OnlyLateArrivals(s: State, a: Action, w: nat)
    requires Inv(s) && Rounds(s) && FindsDrained(s, a, w)
    ensures InteractiveQueued(s) <==> LateArrival(s, s.workers[w].phase.mark)
  {
    var p := s.workers[w].phase;
    assert RoundOk(s, s.workers[w]);
    assert p.todo + p.seen.Keys == {};
    assert Taken(s, p.mark, {});
    if u :| Q(s, (Interactive, u)) != [] {
      HeadOk(s, (Interactive, u));
      var n := Q(s, (Interactive, u))[0];
      assert s.accepted[n].lane == Interactive && s.place[n] == Queued;
    }
    if n :| p.mark <= n < |s.accepted| && n < |s.place| && s.accepted[n].lane == Interactive && s.place[n] == Queued {
      assert PlaceOk(s, n);
      assert n in Q(s, (Interactive, s.accepted[n].tenant));
    }
  }

  /** Exactly when a worker turns its back on interactive work. In every reachable
      state the step does so if and only if either the sub-queue it chose is closed
      and empty while another tenant has entries or a Submit can still land; or its
      scan of the closed lane found nothing while an entry has arrived since the
      scan began or a Submit can still land. */
  lemma GivesUpWorkIff(s: State, run: seq<Action>, a: Action, w: nat)
    requires Init(s)
    ensures var e := Exec(s, run);
            GivesUp(e, a, w) && WorkLeft(Step(e, a))
            <==> || (FindsClosed(e, a, w) && (OtherQueued(e, e.workers[w].phase.t) || CanLand(e)))
                 || (FindsDrained(e, a, w) && (LateArrival(e, e.workers[w].phase.mark) || CanLand(e)))
  {
    InitInv(s);
    ExecKeepsRounds(s, run);
    var e := Exec(s, run);
    GivesUpIff(e, a, w);
    if GivesUp(e, a, w) {
      SameWork(e, Step(e, a));
      if FindsDrained(e, a, w) {
        OnlyLateArrivals(e, a, w);
      } else {
        ClosedLeavesOthers(e, e.workers[w].phase.t);
      }
    }
  }

  lemma SameWork(s: State, s': State)
    requires s'.queues == s.queues && s'.pushing == s.pushing && s'.queueClosed == s.queueClosed
    ensures WorkLeft(s) <==> WorkLeft(s')
  {
    assert forall k :: Q(s', k) == Q(s, k);
  }

  lemma ClosedLeavesOthers(s: State, t: string)
    requires Q(s, (Interactive, t)) == []
    ensures InteractiveQueued(s) <==> OtherQueued(s, t)
  {
    if u :| Q(s, (Interactive, u)) != [] {
      assert u != t;
    }
  }

  /** The condition is about the future, too: once the lane is closed, interactive
      entries will ever be queued again exactly if work is left now. */
  lemma WorkLeftIff(s: State, run: seq<Action>)
    requires Init(s) && Interactive in Exec(s, run).laneClosed
    ensures WorkLeft(Exec(s, run)) <==> QueuedSomeDay(Exec(s, run))
  {
    var e := Exec(s, run);
    ExecKeepsCap(s, run);
    if WorkLeft(e) {
      var more := LandsOrWaits(e);
      assert InteractiveQueued(Exec(e, more));
    } else {
      forall more: seq<Action>
        ensures !InteractiveQueued(Exec(e, more))
      {
        NothingMore(e, more);
      }
    }
  }

  ghost predicate QueuedSomeDay(s: State) {
    exists more: seq<Action> :: InteractiveQueued(Exec(s, more))
  }

  lemma LandsOrWaits(s: State) returns (more: seq<Action>)
    requires WorkLeft(s) && s.capI > 0
    ensures InteractiveQueued(Exec(s, more))
  {
    if InteractiveQueued(s) {
      more := [];
    } else {
      var i :| 0 <= i < |s.pushing| && s.pushing[i].lane == Interactive && KeyOf(s.pushing[i]) !in s.queueClosed;
      var k := KeyOf(s.pushing[i]);
      assert Q(s, (Interactive, s.pushing[i].tenant)) == [];
      more := [Push(i)];
      assert Exec(Step(s, Push(i)), more[1..]) == Step(s, Push(i));
      assert Q(Step(s, Push(i)), (Interactive, s.pushing[i].tenant)) != [];
    }
  }

  lemma {:induction false} NothingMore(s: State, more: seq<Action>)
    requires Interactive in s.laneClosed && !WorkLeft(s)
    ensures !InteractiveQueued(Exec(s, more))
    decreases |more|
  {
    if more != [] {
      NothingArrives(s, more[0]);
      NothingMore(Step(s, more[0]), more[1..]);
    }
  }

  lemma NothingArrives(s: State, a: Action)
    requires Interactive in s.laneClosed && !WorkLeft(s)
    ensures Interactive in Step(s, a).laneClosed && !WorkLeft(Step(s, a))
  {
    if Enabled(s, a) {
      match a {
        case Submit(e) => SubmitAddsNothing(s, e);
        case Push(i) => PushAddsNothing(s, i);
        case Pop(w) => PopAddsNothing(s, w);
        case CloseQueue(_) => assert forall k :: Q(Step(s, a), k) == Q(s, k);
        case _ => SameWork(s, Step(s, a));
      }
    }
  }

  lemma SubmitAddsNothing(s: State, e: Entry)
    requires Interactive in s.laneClosed
    ensures WorkLeft(DoSubmit(s, e)) ==> WorkLeft(s)
  {
    var s' := DoSubmit(s, e);
    assert forall k :: Q(s', k) == Q(s, k);
    if CanLand(s') {
      var i :| 0 <= i < |s'.pushing| && s'.pushing[i].lane == Interactive && KeyOf(s'.pushing[i]) !in s'.queueClosed;
      assert s'.pushing[i] == s.pushing[i];
    }
  }

  lemma PushAddsNothing(s: State, i: nat)
    requires i < |s.pushing|
    ensures WorkLeft(DoPush(s, i)) ==> WorkLeft(s)
  {
    var s' := DoPush(s, i);
    if CanLand(s') {
      var j :| 0 <= j < |s'.pushing| && s'.pushing[j].lane == Interactive && KeyOf(s'.pushing[j]) !in s'.queueClosed;
      assert s'.pushing[j] == if j < i then s.pushing[j] else s.pushing[j + 1];
      assert CanLand(s);
    } else if InteractiveQueued(s') {
      var u :| Q(s', (Interactive, u)) != [];
      assert Q(s, (Interactive, u)) != [] || KeyOf(s.pushing[i]) == (Interactive, u);
      assert InteractiveQueued(s) || CanLand(s);
    }
  }

  lemma PopAddsNothing(s: State, w: nat)
    requires !WorkLeft(s) && w < |s.workers| && s.workers[w].phase.Chosen?
    ensures !WorkLeft(DoPop(s, w))
  {
    var s' := DoPop(s, w);
    forall u
      ensures Q(s', (Interactive, u)) == []
    {
      assert Q(s, (Interactive, u)) == [];
    }
  }

  // ----- An entry nobody will come for ------------------------------------

  /** The worker will not look at the interactive lane again: it has given it up, or
      has returned, as workers do when the root context is cancelled. */
  predicate Gone(k: Worker) { GaveUp(k) || k.phase == Exited }

  lemma StaysGone(s: State, a: Action, w: nat)
    requires w < |s.workers| == |Step(s, a).workers| && Gone(s.workers[w])
    ensures Gone(Step(s, a).workers[w])
  {
    if GaveUp(s.workers[w]) {
      StaysGivenUp(s, a, w);
    } else if Actor(a) != Some(w) {
      OthersStay(s, a, w);
    }
  }

  /** Once every worker is gone, what is queued there stays queued. */
  lemma {:induction false} StrandedForGood(s: State, run: seq<Action>, n: nat)
    requires Inv(s) && n < |s.accepted| && s.accepted[n].lane == Interactive && s.place[n] == Queued
    requires forall w :: 0 <= w < |s.workers| ==> Gone(s.workers[w])
    ensures n < |Exec(s, run).place| && Exec(s, run).place[n] == Queued
    decreases |run|
  {
    if run != [] {
      var s' := Step(s, run[0]);
      StepKeepsInv(s, run[0]);
      StepGrows(s, run[0]);
      StepKeepsCap(s, run[0]);
      forall w | 0 <= w < |s'.workers|
        ensures Gone(s'.workers[w])
      {
        StaysGone(s, run[0], w);
      }
      StaysQueued(s, run[0], n);
      StrandedForGood(s', run[1..], n);
    }
  }

  lemma StaysQueued(s: State, a: Action, n: nat)
    requires Inv(s) && n < |s.accepted| && s.accepted[n].lane == Interactive && s.place[n] == Queued
    requires forall w :: 0 <= w < |s.workers| ==> Gone(s.workers[w])
    ensures n < |Step(s, a).place| && Step(s, a).place[n] == Queued
  {
    if Enabled(s, a) {
      match a {
        case Pop(w) =>
          assert GaveUp(s.workers[w]);
          var key := (s.workers[w].phase.lane, s.workers[w].phase.t);
          if Q(s, key) != [] {
            HeadOk(s, key);
          }
        case Acquire(w) => assert HoldsOk(s, w);
        case Abandon(w) => assert HoldsOk(s, w);
        case Finish(w) => assert HoldsOk(s, w);
        case _ =>
      }
    }
  }

  // ----- Both routes happen -----------------------------------------------

  function LateSubmit(e: Entry): seq<Action> {
    [Submit(e), CloseLane(Interactive), Begin(0), Read(0, e.tenant), EndScan(0, e.tenant), Push(0)]
  }

  /** The first route: a Submit passes the lane's check, the lane closes, a worker
      scans it empty and gives it up, and only then the entry is accepted. */
  lemma LateSubmitLeavesWork(s: State, e: Entry)
    requires Init(s) && e.lane == Interactive
    ensures var end := Exec(s, LateSubmit(e));
            && |end.workers| == |s.workers| && GaveUp(end.workers[0]) && end.queueClosed == {}
            && end.accepted == [e] && end.place == [Queued] && Q(end, KeyOf(e)) == [0]
  {
    var t := e.tenant;
    var s3 := ScansClosed(s, e);
    ReadsNothing(s3, e);
    Lands(Step(Step(s3, Read(0, t)), EndScan(0, t)), e);
    SixSteps(s, LateSubmit(e));
  }

  /** With a single worker it is never dispatched, whatever follows. */
  lemma LateSubmitIsStranded(s: State, e: Entry, more: seq<Action>)
    requires Init(s) && e.lane == Interactive && |s.workers| == 1
    ensures var end := Exec(Exec(s, LateSubmit(e)), more);
            |end.place| > 0 && end.place[0] == Queued
  {
    LateSubmitLeavesWork(s, e);
    InitInv(s);
    ExecKeepsInv(s, LateSubmit(e));
    StrandedForGood(Exec(s, LateSubmit(e)), more, 0);
  }

  lemma ScansClosed(s: State, e: Entry) returns (s3: State)
    requires Init(s) && e.lane == Interactive
    ensures s3 == Step(Step(Step(s, Submit(e)), CloseLane(Interactive)), Begin(0))
    ensures s3 == s.(queues := map[KeyOf(e) := []], pushing := [e], laneClosed := {Interactive},
                     workers := s.workers[0 := Worker(true, true, Scan(Interactive, {e.tenant}, map[], true, 0, NoAttempt))])
  {
    var s1 := Step(s, Submit(e));
    assert s1 == s.(queues := map[KeyOf(e) := []], pushing := [e]);
    var s2 := Step(s1, CloseLane(Interactive));
    assert s2 == s1.(laneClosed := {Interactive});
    assert TenantsOf(s2, Interactive) == {e.tenant} by {
      assert KeyOf(e) in s2.queues;
    }
    s3 := Step(s2, Begin(0));
  }

  lemma ReadsNothing(s: State, e: Entry)
    requires e.lane == Interactive && s.queues == map[KeyOf(e) := []] && s.workers != []
    requires s.workers[0] == Worker(true, true, Scan(Interactive, {e.tenant}, map[], true, 0, NoAttempt))
    ensures var s' := Step(Step(s, Read(0, e.tenant)), EndScan(0, e.tenant));
            |s'.workers| == |s.workers| && GaveUp(s'.workers[0]) && s' == s.(workers := s'.workers)
  {
    var s1 := Step(s, Read(0, e.tenant));
    assert Q(s, (Interactive, e.tenant)) == [] by {
      assert KeyOf(e) == (Interactive, e.tenant);
    }
    assert {e.tenant} - {e.tenant} == {};
    assert s1 == s.(workers := s.workers[0 := Worker(true, true, Scan(Interactive, {}, map[], true, 0, NoAttempt))]);
  }

  lemma Lands(s: State, e: Entry)
    requires s.pushing == [e] && s.accepted == [] && s.place == [] && s.queueClosed == {} && s.queues == map[KeyOf(e) := []]
    requires e.lane == Interactive && s.capI > 0
    ensures var s' := Step(s, Push(0));
            s' == s.(pushing := [], queues := map[KeyOf(e) := [0]], accepted := [e], place := [Queued])
  {
    var k := KeyOf(e);
    assert s.pushing[..0] + s.pushing[1..] == [];
    assert Q(s, k) == [] && Q(s, k) + [|s.accepted|] == [0];
    assert s.queues[k := [0]] == map[k := [0]];
    assert s.accepted + [e] == [e] && s.place + [Queued] == [Queued];
  }

  lemma SixSteps(s: State, run: seq<Action>)
    requires |run| == 6
    ensures Exec(s, run) == Step(Step(Step(Step(Step(Step(s, run[0]), run[1]), run[2]), run[3]), run[4]), run[5])
  {
    var s2 := Step(Step(s, run[0]), run[1]);
    ExecConcat(s, run[..2], run[2..]);
    assert run[..2] + run[2..] == run && run[..2] == [run[0], run[1]] && run[2..] == [run[2], run[3], run[4], run[5]];
    assert [run[0], run[1]][1..] == [run[1]];
    assert Exec(Step(s, run[0]), [run[1]]) == s2;
    FourSteps(s2, run[2], run[3], run[4], run[5]);
  }

  /** Two workers v and w have chosen the same interactive tenant, which has one
      entry. If v takes it and Stop closes that sub-queue before w tries, then w
      gives up the whole interactive lane for good, although another tenant's
      entries are still queued there: from here on w pops batch entries past
      them. */
  lemma ClosedRaceForgetsLane(s: State, v: nat, w: nat, u: string, run: seq<Action>)
    requires Inv(s) && v < |s.workers| && w < |s.workers| && v != w
    requires s.workers[v].phase.Chosen? && s.workers[w].phase.Chosen?
    requires var pv, pw := s.workers[v].phase, s.workers[w].phase;
             && pv.lane == pw.lane == Interactive && pv.t == pw.t != u
             && |Q(s, (Interactive, pw.t))| == 1 && Q(s, (Interactive, u)) != []
    ensures var t := s.workers[w].phase.t;
            var race := [Pop(v), CloseLane(Interactive), CloseQueue((Interactive, t)), Pop(w)];
            && Q(Exec(s, race), (Interactive, u)) == Q(s, (Interactive, u))
            && |Exec(s, race + run).workers| == |s.workers| && GaveUp(Exec(s, race + run).workers[w])
  {
    var t := s.workers[w].phase.t;
    TakeLast(s, v, w, u);
    var s1 := Step(s, Pop(v));
    var s2 := Step(s1, CloseLane(Interactive));
    var s3 := Step(s2, CloseQueue((Interactive, t)));
    assert s3 == s1.(laneClosed := s3.laneClosed, queueClosed := s1.queueClosed + {(Interactive, t)});
    LoseClosed(s3, w, u);
    FourSteps(s, Pop(v), CloseLane(Interactive), CloseQueue((Interactive, t)), Pop(w));
    ExecConcat(s, [Pop(v), CloseLane(Interactive), CloseQueue((Interactive, t)), Pop(w)], run);
    GaveUpForGood(Step(s3, Pop(w)), run, w);
  }

  /** A Submit from a tenant not seen before, run to the end. */
  lemma SubmitsFirst(s: State, e: Entry)
    requires s.pushing == [] && s.queueClosed == {} && s.laneClosed == {} && KeyOf(e) !in s.queues && Cap(s, e.lane) > 0
    ensures Exec(s, [Submit(e), Push(0)])
         == s.(queues := s.queues[KeyOf(e) := [|s.accepted|]], accepted := s.accepted + [e], place := s.place + [Queued])
  {
    var k, n := KeyOf(e), |s.accepted|;
    var s1 := Step(s, Submit(e));
    assert s1.pushing == [e];
    assert s1.pushing[..0] + s1.pushing[1..] == [];
    assert Q(s1, k) + [n] == [n];
    assert s.queues[k := []][k := [n]] == s.queues[k := [n]];
    var run := [Submit(e), Push(0)];
    assert run[1..] == [Push(0)];
    assert Exec(s1, [Push(0)]) == Step(s1, Push(0));
  }

  lemma ReadsOne(s: State, w: nat, t: string, todo: set<string>, seen: map<string, nat>, mark: nat)
    requires w < |s.workers| && t in todo && Q(s, (Interactive, t)) != []
    requires s.workers[w] == Worker(true, true, Scan(Interactive, todo, seen, false, mark, NoAttempt))
    ensures Step(s, Read(w, t)) == SetWorker(s, w, Worker(true, true,
              Scan(Interactive, todo - {t}, seen[t := |P(s, (Interactive, t))|], false, mark, NoAttempt)))
  {
  }

  lemma SetTwice(s: State, w: nat, k: Worker, k': Worker)
    requires w < |s.workers|
    ensures SetWorker(SetWorker(s, w, k), w, k') == SetWorker(s, w, k')
  {
  }

  /** A worker scans two tenants with entries and picks the first. */
  lemma ScansTwo(s: State, w: nat, t: string, u: string)
    requires w < |s.workers| && s.workers[w] == Worker(true, true, Top) && !s.cancelled && s.laneClosed == {} && t != u
    requires TenantsOf(s, Interactive) == {t, u} && Q(s, (Interactive, t)) != [] && Q(s, (Interactive, u)) != []
    ensures Exec(s, [Begin(w), Read(w, t), Read(w, u), EndScan(w, t)])
         == SetWorker(s, w, Worker(true, true, Chosen(Interactive, t, |P(s, (Interactive, t))|, |s.accepted|, NoAttempt)))
  {
    var pt, pu, mark := |P(s, (Interactive, t))|, |P(s, (Interactive, u))|, |s.accepted|;
    var k1 := Worker(true, true, Scan(Interactive, {t, u}, map[], false, mark, NoAttempt));
    var k2 := Worker(true, true, Scan(Interactive, {u}, map[t := pt], false, mark, NoAttempt));
    var k3 := Worker(true, true, Scan(Interactive, {}, map[t := pt][u := pu], false, mark, NoAttempt));
    var k4 := Worker(true, true, Chosen(Interactive, t, pt, mark, NoAttempt));
    assert Step(s, Begin(w)) == SetWorker(s, w, k1);
    ReadsOne(SetWorker(s, w, k1), w, t, {t, u}, map[], mark);
    assert {t, u} - {t} == {u};
    SetTwice(s, w, k1, k2);
    ReadsOne(SetWorker(s, w, k2), w, u, {u}, map[t := pt], mark);
    assert {u} - {u} == {};
    SetTwice(s, w, k2, k3);
    Picks(SetWorker(s, w, k3), w, t, map[t := pt][u := pu], mark);
    SetTwice(s, w, k3, k4);
    FourSteps(s, Begin(w), Read(w, t), Read(w, u), EndScan(w, t));
  }

  lemma Picks(s: State, w: nat, t: string, seen: map<string, nat>, mark: nat)
    requires w < |s.workers| && t in seen
    requires s.workers[w] == Worker(true, true, Scan(Interactive, {}, seen, false, mark, NoAttempt))
    ensures Step(s, EndScan(w, t)) == SetWorker(s, w, Worker(true, true, Chosen(Interactive, t, seen[t], mark, NoAttempt)))
  {
  }

  /** Two tenants with one entry each. */
  lemma TwoSubmits(s: State, e: Entry, f: Entry)
    requires Init(s) && e.lane == f.lane == Interactive && e.tenant != f.tenant
    ensures Exec(s, [Submit(e), Push(0)] + [Submit(f), Push(0)])
         == s.(queues := map[KeyOf(e) := [0], KeyOf(f) := [1]], accepted := [e, f], place := [Queued, Queued])
  {
    SubmitsFirst(s, e);
    var s1 := Exec(s, [Submit(e), Push(0)]);
    assert s1 == s.(queues := map[KeyOf(e) := [0]], accepted := [e], place := [Queued]);
    SubmitsFirst(s1, f);
    ExecConcat(s, [Submit(e), Push(0)], [Submit(f), Push(0)]);
  }

  function ScanOf(w: nat, t: string, u: string): seq<Action> { [Begin(w), Read(w, t), Read(w, u), EndScan(w, t)] }

  /** Two workers that have chosen the same tenant. */
  lemma TwoScans(s: State, e: Entry, f: Entry)
    requires |s.workers| >= 2 && s.workers[0] == s.workers[1] == Worker(true, true, Top) && !s.cancelled && s.laneClosed == {}
    requires s.queues == map[KeyOf(e) := [0], KeyOf(f) := [1]] && s.popped == map[] && |s.accepted| == 2
    requires e.lane == f.lane == Interactive && e.tenant != f.tenant
    ensures var k := Worker(true, true, Chosen(Interactive, e.tenant, 0, 2, NoAttempt));
            Exec(s, ScanOf(0, e.tenant, f.tenant) + ScanOf(1, e.tenant, f.tenant)) == s.(workers := s.workers[0 := k][1 := k])
  {
    var t, u := e.tenant, f.tenant;
    var k := Worker(true, true, Chosen(Interactive, t, 0, 2, NoAttempt));
    TwoTenants(s, e, f);
    ScansTwo(s, 0, t, u);
    TwoTenants(SetWorker(s, 0, k), e, f);
    ScansTwo(SetWorker(s, 0, k), 1, t, u);
    ExecConcat(s, ScanOf(0, t, u), ScanOf(1, t, u));
  }

  lemma RaceSetup(s: State, e: Entry, f: Entry) returns (run: seq<Action>)
    requires Init(s) && |s.workers| >= 2 && e.lane == f.lane == Interactive && e.tenant != f.tenant
    ensures var k := Worker(true, true, Chosen(Interactive, e.tenant, 0, 2, NoAttempt));
            Exec(s, run) == s.(queues := map[KeyOf(e) := [0], KeyOf(f) := [1]], accepted := [e, f], place := [Queued, Queued],
                               workers := s.workers[0 := k][1 := k])
  {
    var submits, scans := [Submit(e), Push(0)] + [Submit(f), Push(0)], ScanOf(0, e.tenant, f.tenant) + ScanOf(1, e.tenant, f.tenant);
    TwoSubmits(s, e, f);
    TwoScans(Exec(s, submits), e, f);
    ExecConcat(s, submits, scans);
    run := submits + scans;
  }

  lemma TwoTenants(s: State, e: Entry, f: Entry)
    requires s.queues == map[KeyOf(e) := [0], KeyOf(f) := [1]] && e.lane == f.lane == Interactive && e.tenant != f.tenant
    ensures TenantsOf(s, Interactive) == {e.tenant, f.tenant}
    ensures Q(s, (Interactive, e.tenant)) == [0] && Q(s, (Interactive, f.tenant)) == [1]
  {
    assert KeyOf(e) in s.queues && KeyOf(f) in s.queues;
    assert KeyOf(e) == (Interactive, e.tenant) && KeyOf(f) == (Interactive, f.tenant);
  }

  /** The second route from the start: two workers race for one tenant's only entry
      while Stop closes that sub-queue, and the loser gives the lane up although
      the other tenant's entry is queued. */
  lemma RaceLeavesWork(s: State, e: Entry, f: Entry) returns (run: seq<Action>)
    requires Init(s) && |s.workers| >= 2 && e.lane == f.lane == Interactive && e.tenant != f.tenant
    ensures var end := Exec(s, run);
            |end.workers| == |s.workers| && GaveUp(end.workers[1]) && Q(end, KeyOf(f)) == [1]
  {
    var setup := RaceSetup(s, e, f);
    var s1 := Exec(s, setup);
    InitInv(s);
    ExecKeepsInv(s, setup);
    TwoTenants(s1, e, f);
    var race := [Pop(0), CloseLane(Interactive), CloseQueue((Interactive, e.tenant)), Pop(1)];
    ClosedRaceForgetsLane(s1, 0, 1, f.tenant, []);
    assert race + [] == race;
    ExecConcat(s, setup, race);
    run := setup + race;
  }

  lemma TakeLast(s: State, v: nat, w: nat, u: string)
    requires Inv(s) && v < |s.workers| && w < |s.workers| && v != w && s.workers[v].phase.Chosen?
    requires var k := (s.workers[v].phase.lane, s.workers[v].phase.t); |Q(s, k)| == 1 && k.1 != u
    ensures var s' := Step(s, Pop(v));
            && |s'.workers| == |s.workers| && s'.workers[w] == s.workers[w]
            && Q(s', (s.workers[v].phase.lane, s.workers[v].phase.t)) == []
            && Q(s', (s.workers[v].phase.lane, u)) == Q(s, (s.workers[v].phase.lane, u))
  {
    HeadOk(s, (s.workers[v].phase.lane, s.workers[v].phase.t));
  }

  lemma LoseClosed(s: State, w: nat, u: string)
    requires w < |s.workers| && s.workers[w].phase.Chosen? && s.workers[w].phase.lane == Interactive
    requires var k := (Interactive, s.workers[w].phase.t); Q(s, k) == [] && k in s.queueClosed
    ensures var s' := Step(s, Pop(w));
            && |s'.workers| == |s.workers| && GaveUp(s'.workers[w])
            && Q(s', (Interactive, u)) == Q(s, (Interactive, u))
  {
  }

  lemma FourSteps(s: State, a: Action, b: Action, c: Action, d: Action)
    ensures Exec(s, [a, b, c, d]) == Step(Step(Step(Step(s, a), b), c), d)
  {
    var s1 := Step(s, a);
    var s2 := Step(s1, b);
    var s3 := Step(s2, c);
    assert [a, b, c, d][1..] == [b, c, d] && [b, c, d][1..] == [c, d] && [c, d][1..] == [d];
    assert Exec(s3, [d]) == Step(s3, d);
    assert Exec(s2, [c, d]) == Exec(s3, [d]);
    assert Exec(s1, [b, c, d]) == Exec(s2, [c, d]);
  }

  lemma {:induction false} ExecConcat(s: State, first: seq<Action>, second: seq<Action>)
    ensures Exec(s, first + second) == Exec(Exec(s, first), second)
    decreases |first|
  {
    if first == [] {
      assert first + second == second;
    } else {
      assert (first + second)[1..] == first[1..] + second;
      ExecConcat(Step(s, first[0]), first[1..], second);
    }
  }
}
