/** Strict priority of the interactive lane in the InteractiveFirst scheduler
    (workerLoop in internal/scheduler/interactive_first.go, tryPop in lane.go): what
    a worker that is about to pop a batch entry knows about the interactive one. */
module Priority {
  import opened Common
  import opened Dispatch

  // ----- Strict priority --------------------------------------------------

  /** Of the first `mark` entries accepted, no interactive one is still queued,
      except perhaps for the tenants in `skip`. */
  predicate Taken(s: State, mark: nat, skip: set<string>) {
    forall n :: 0 <= n < mark && n < |s.accepted| && n < |s.place| ==>
      s.accepted[n].lane == Interactive && s.accepted[n].tenant !in skip ==> s.place[n] != Queued
  }

  /** When t was read, `at` of its entries had been popped and one was queued. */
  predicate SeenOk(s: State, l: LaneName, t: string, at: nat) {
    at <= |P(s, (l, t))| && at < |P(s, (l, t))| + |Q(s, (l, t))|
  }

  predicate TriedOk(s: State, k: Worker, mark: nat, tried: Tried) {
    match tried
    case NoAttempt => !k.iOpen
    case SawEmpty => Taken(s, mark, {})
    case Raced(t, at) => at < |P(s, (Interactive, t))|
  }

  ghost predicate RoundOk(s: State, k: Worker) {
    && (!k.iOpen ==> Interactive in s.laneClosed)
    && (!k.bOpen ==> Batch in s.laneClosed)
    && match k.phase
       case Scan(l, todo, seen, wasClosed, mark, tried) =>
         && mark <= |s.accepted| && (wasClosed ==> l in s.laneClosed)
         && (forall t :: t in seen ==> SeenOk(s, l, t, seen[t]))
         && if l == Interactive then Taken(s, mark, todo + seen.Keys) else TriedOk(s, k, mark, tried)
       case Chosen(l, t, at, mark, tried) =>
         && mark <= |s.accepted| && SeenOk(s, l, t, at)
         && (l == Batch ==> TriedOk(s, k, mark, tried))
       case _ => true
  }

  ghost predicate Rounds(s: State) {
    && (forall w :: 0 <= w < |s.workers| ==> RoundOk(s, s.workers[w]))
    && forall k :: k in s.queueClosed ==> k.0 in s.laneClosed
  }

  /** What no step takes back. */
  ghost predicate Grows(s: State, s': State) {
    && s.laneClosed <= s'.laneClosed
    && |s.accepted| == |s.place| && |s'.accepted| == |s'.place| && s.accepted <= s'.accepted
    && (forall n :: 0 <= n < |s.place| && s.place[n] != Queued ==> s'.place[n] != Queued)
    && forall k: Key :: |P(s, k)| <= |P(s', k)| && |P(s, k)| + |Q(s, k)| <= |P(s', k)| + |Q(s', k)|
  }

  lemma CarryGrows(s: State, a: Action, w: nat)
    requires Inv(s) && Enabled(s, a) && (a == Acquire(w) || a == Abandon(w) || a == Finish(w))
    ensures Grows(s, Step(s, a))
  {
    assert HoldsOk(s, w);
    var s' := Step(s, a);
    assert forall k :: P(s', k) == P(s, k) && Q(s', k) == Q(s, k);
  }

  lemma SubmitGrows(s: State, e: Entry)
    requires Inv(s)
    ensures Grows(s, DoSubmit(s, e))
  {
    assert forall k :: P(DoSubmit(s, e), k) == P(s, k) && Q(DoSubmit(s, e), k) == Q(s, k);
  }

  lemma PushGrows(s: State, i: nat)
    requires Inv(s) && i < |s.pushing|
    ensures Grows(s, DoPush(s, i))
  {
    assert forall k :: P(DoPush(s, i), k) == P(s, k) && |Q(s, k)| <= |Q(DoPush(s, i), k)|;
  }

  lemma PopGrows(s: State, w: nat)
    requires Inv(s) && w < |s.workers| && s.workers[w].phase.Chosen?
    ensures Grows(s, DoPop(s, w))
  {
    var key := (s.workers[w].phase.lane, s.workers[w].phase.t);
    if Q(s, key) != [] {
      HeadOk(s, key);
    }
  }

  /** Steps that leave the queues, the logs and the places alone. */
  lemma PollGrows(s: State, s': State)
    requires Inv(s)
    requires s'.queues == s.queues && s'.popped == s.popped && s'.accepted == s.accepted && s'.place == s.place
    requires s.laneClosed <= s'.laneClosed
    ensures Grows(s, s')
  {
    assert forall k :: P(s', k) == P(s, k) && Q(s', k) == Q(s, k);
  }

  lemma StepGrows(s: State, a: Action)
    requires Inv(s)
    ensures Grows(s, Step(s, a))
  {
    if !Enabled(s, a) {
      PollGrows(s, s);
    } else {
      match a {
        case Acquire(w) => CarryGrows(s, a, w);
        case Abandon(w) => CarryGrows(s, a, w);
        case Finish(w) => CarryGrows(s, a, w);
        case Submit(e) => SubmitGrows(s, e);
        case Push(i) => PushGrows(s, i);
        case Pop(w) => PopGrows(s, w);
        case _ => PollGrows(s, Step(s, a));
      }
    }
  }

  lemma RoundSurvives(s: State, s': State, k: Worker)
    requires Grows(s, s') && RoundOk(s, k)
    ensures RoundOk(s', k)
  {
    if k.phase.Scan? {
      forall t | t in k.phase.seen
        ensures SeenOk(s', k.phase.lane, t, k.phase.seen[t])
      {
        assert SeenOk(s, k.phase.lane, t, k.phase.seen[t]);
      }
    }
  }

  lemma AllTenantsListed(s: State)
    requires Inv(s)
    ensures Taken(s, |s.accepted|, TenantsOf(s, Interactive))
  {
    forall n | 0 <= n < |s.accepted| && s.accepted[n].lane == Interactive
      ensures s.accepted[n].tenant in TenantsOf(s, Interactive)
    {
      assert KeyOf(s.accepted[n]) in s.queues;
    }
  }

  lemma BeginRound(s: State, w: nat)
    requires Inv(s) && Rounds(s) && w < |s.workers| && s.workers[w].phase == Top
    ensures RoundOk(s, DoBegin(s, w).workers[w])
  {
    assert RoundOk(s, s.workers[w]);
    AllTenantsListed(s);
    var none: map<string, nat> := map[];
    assert TenantsOf(s, Interactive) + none.Keys == TenantsOf(s, Interactive);
  }

  /** A tenant read as empty has none of its entries left in the queue. */
  lemma ReadRound(s: State, w: nat, t: string)
    requires Inv(s) && Rounds(s) && Enabled(s, Read(w, t))
    ensures RoundOk(s, DoRead(s, w, t).workers[w])
  {
    var k, k' := s.workers[w], DoRead(s, w, t).workers[w];
    assert RoundOk(s, k);
    var l := k.phase.lane;
    if l == Interactive {
      forall n | 0 <= n < k.phase.mark && n < |s.accepted| && s.accepted[n].lane == Interactive
                 && s.accepted[n].tenant !in k'.phase.todo + k'.phase.seen.Keys
        ensures s.place[n] != Queued
      {
        assert PlaceOk(s, n);
      }
    }
    forall u | u in k'.phase.seen
      ensures SeenOk(s, l, u, k'.phase.seen[u])
    {
      if u != t || Q(s, (l, t)) == [] {
        assert u in k.phase.seen;
      }
    }
  }

  lemma EndScanRound(s: State, w: nat, t: string)
    requires Inv(s) && Rounds(s) && Enabled(s, EndScan(w, t))
    ensures RoundOk(s, DoEndScan(s, w, t).workers[w])
  {
    var k := s.workers[w];
    assert RoundOk(s, k);
    if t in k.phase.seen {
      assert SeenOk(s, k.phase.lane, t, k.phase.seen[t]);
    } else {
      assert k.phase.todo + k.phase.seen.Keys == {};
      var tried := if k.phase.lane == Interactive then SawEmpty else k.phase.tried;
      MissedRound(s, if k.phase.wasClosed then Shut(k, k.phase.lane) else k, k.phase.lane, k.phase.mark, tried);
    }
  }

  /** The round goes on from a lane that yielded nothing. */
  lemma MissedRound(s: State, k: Worker, l: LaneName, mark: nat, tried: Tried)
    requires mark <= |s.accepted|
    requires (!k.iOpen ==> Interactive in s.laneClosed) && (!k.bOpen ==> Batch in s.laneClosed)
    requires TriedOk(s, k, mark, tried) || l == Batch
    ensures RoundOk(s, Missed(s, k, l, mark, tried))
  {
  }

  /** A chosen sub-queue found empty has had an entry taken since it was read. */
  lemma PopRound(s: State, w: nat)
    requires Inv(s) && Rounds(s) && Enabled(s, Pop(w))
    ensures RoundOk(DoPop(s, w), DoPop(s, w).workers[w])
  {
    var k := s.workers[w];
    var key := (k.phase.lane, k.phase.t);
    assert RoundOk(s, k);
    if Q(s, key) != [] {
      HeadOk(s, key);
    }
  }

  lemma StepKeepsRounds(s: State, a: Action)
    requires Inv(s) && Rounds(s)
    ensures Rounds(Step(s, a))
  {
    if Enabled(s, a) {
      var s' := Step(s, a);
      StepGrows(s, a);
      forall w | 0 <= w < |s'.workers|
        ensures RoundOk(s', s'.workers[w])
      {
        if s'.workers[w] == s.workers[w] {
          RoundSurvives(s, s', s.workers[w]);
        } else {
          MovedRound(s, a, w);
        }
      }
    }
  }

  /** Handling an entry leaves nothing of a round to remember. */
  lemma CarryRound(s: State, a: Action, w: nat)
    requires w < |s.workers| && RoundOk(s, s.workers[w]) && Enabled(s, a)
    requires a == Acquire(w) || a == Abandon(w) || a == Finish(w)
    ensures RoundOk(Step(s, a), Step(s, a).workers[w])
  {
  }

  lemma MovedRound(s: State, a: Action, w: nat)
    requires Inv(s) && Rounds(s) && Enabled(s, a) && w < |s.workers| == |Step(s, a).workers|
    requires Step(s, a).workers[w] != s.workers[w]
    ensures RoundOk(Step(s, a), Step(s, a).workers[w])
  {
    if Actor(a) != Some(w) {
      OthersStay(s, a, w);
      assert false;
    }
    var s' := Step(s, a);
    StepGrows(s, a);
    match a {
      case Begin(_) =>
        BeginRound(s, w);
        RoundSurvives(s, s', s'.workers[w]);
      case Read(_, t) =>
        ReadRound(s, w, t);
        RoundSurvives(s, s', s'.workers[w]);
      case EndScan(_, t) =>
        EndScanRound(s, w, t);
        RoundSurvives(s, s', s'.workers[w]);
      case Pop(_) =>
        PopRound(s, w);
      case _ =>
        CarryRound(s, a, w);
    }
  }

  lemma {:induction false} ExecKeepsRounds(s: State, run: seq<Action>)
    requires Inv(s) && Rounds(s)
    ensures Inv(Exec(s, run)) && Rounds(Exec(s, run))
    decreases |run|
  {
    if run != [] {
      StepKeepsInv(s, run[0]);
      StepKeepsRounds(s, run[0]);
      ExecKeepsRounds(Step(s, run[0]), run[1..]);
    }
  }

  /** Strict priority. When a worker is about to pop a batch entry, its
      interactive attempt of the same round either found every interactive
      tenant empty, and then every interactive entry accepted before that
      attempt began has left its queue; or it lost the tenant it chose to
      another worker, which has popped from that tenant since; or the worker
      made no attempt, which happens only after the interactive lane closed. */
  lemma StrictPriority(s: State, run: seq<Action>, w: nat)
    requires Init(s)
    requires var e := Exec(s, run); w < |e.workers| && e.workers[w].phase.Chosen? && e.workers[w].phase.lane == Batch
    ensures var e := Exec(s, run);
            var p := e.workers[w].phase;
            match p.tried
            case SawEmpty => Taken(e, p.mark, {}) && p.mark <= |e.accepted| == |e.place|
            case Raced(t, at) => at < |P(e, (Interactive, t))|
            case NoAttempt => !e.workers[w].iOpen && Interactive in e.laneClosed
  {
    InitInv(s);
    ExecKeepsRounds(s, run);
    var e := Exec(s, run);
    assert RoundOk(e, e.workers[w]);
  }

  // ----- One worker -------------------------------------------------------

  /** With nobody else popping, nothing changes between a read and the pop. */
  predicate SoloOk(s: State) {
    |s.workers| == 1 ==>
      match s.workers[0].phase
      case Scan(l, _, seen, _, _, tried) =>
        !tried.Raced? && forall t :: t in seen ==> seen[t] == |P(s, (l, t))|
      case Chosen(l, t, at, _, tried) => !tried.Raced? && at == |P(s, (l, t))|
      case _ => true
  }

  /** Steps of the environment touch neither the worker nor what was popped. */
  lemma EnvironmentKeepsSolo(s: State, a: Action)
    requires SoloOk(s) && Enabled(s, a)
    requires a.Submit? || a.Push? || a.CloseLane? || a.CloseQueue? || a.CancelRoot?
    ensures SoloOk(Step(s, a))
  {
    assert Step(s, a).workers == s.workers && Step(s, a).popped == s.popped;
    assert forall k :: P(Step(s, a), k) == P(s, k);
  }

  lemma ScanKeepsSolo(s: State, a: Action)
    requires SoloOk(s) && Enabled(s, a) && (a.Read? || a.EndScan?)
    ensures SoloOk(Step(s, a))
  {
    assert Step(s, a).popped == s.popped;
    assert forall k :: P(Step(s, a), k) == P(s, k);
  }

  lemma StepKeepsSolo(s: State, a: Action)
    requires Inv(s) && Rounds(s) && SoloOk(s)
    ensures SoloOk(Step(s, a))
  {
    if Enabled(s, a) && |s.workers| == 1 {
      match a {
        case Pop(_) => SoloPop(s);
        case Read(_, _) => ScanKeepsSolo(s, a);
        case EndScan(_, _) => ScanKeepsSolo(s, a);
        case Begin(_) =>
        case Acquire(_) =>
        case Abandon(_) =>
        case Finish(_) =>
        case _ => EnvironmentKeepsSolo(s, a);
      }
    }
  }

  lemma SoloPop(s: State)
    requires Inv(s) && Rounds(s) && SoloOk(s) && |s.workers| == 1 && s.workers[0].phase.Chosen?
    ensures DoPop(s, 0).workers[0].phase.Carry?
  {
    assert RoundOk(s, s.workers[0]);
    HeadOk(s, (s.workers[0].phase.lane, s.workers[0].phase.t));
  }

  lemma {:induction false} ExecKeepsSolo(s: State, run: seq<Action>)
    requires Inv(s) && Rounds(s) && SoloOk(s)
    ensures Inv(Exec(s, run)) && Rounds(Exec(s, run)) && SoloOk(Exec(s, run))
    decreases |run|
  {
    if run != [] {
      StepKeepsInv(s, run[0]);
      StepKeepsRounds(s, run[0]);
      StepKeepsSolo(s, run[0]);
      ExecKeepsSolo(Step(s, run[0]), run[1..]);
    }
  }

  /** With a single worker and the interactive lane open, a batch entry is popped
      only once every interactive entry accepted before the round's scan has
      been popped; and a chosen sub-queue always yields an entry. */
  lemma SoloStrictPriority(s: State, run: seq<Action>)
    requires Init(s) && |s.workers| == 1
    requires |Exec(s, run).workers| == 1 && Exec(s, run).workers[0].phase.Chosen?
    ensures var e := Exec(s, run);
            var p := e.workers[0].phase;
            && DoPop(e, 0).workers[0].phase.Carry?
            && (p.lane == Batch && Interactive !in e.laneClosed ==> Taken(e, p.mark, {}))
  {
    InitInv(s);
    ExecKeepsSolo(s, run);
    ExecKeepsCap(s, run);
    var e := Exec(s, run);
    assert RoundOk(e, e.workers[0]);
    SoloPop(e);
  }
}
