/** The phase refiner and its abort judge (internal/provisioners/staging.go): what a
    replica's deploy reports while its engine starts, and when a download that
    cannot finish in time ends the deploy. The sensor's interval is in seconds;
    deadlines and projections are in nanoseconds, as in the source. */
module Refiner {
  import opened Common

  /** A provider's own rungs pass through unchanged. */
  datatype Phase = EngineInit | EngineDownload | EngineLoad | Provider(name: string)

  /** What the node's agent last reported about weights arriving. */
  datatype Reading = Reading(available: bool, interval: real, rate: real, local: int)

  /** A Duration. */
  type int64 = x: int | MIN_INT64 <= x < TWO_TO_63

  const TWO_TO_63: int := 0x8000_0000_0000_0000
  const MIN_INT64: int := -0x8000_0000_0000_0000
  const SECOND: real := 1_000_000_000.0

  /** One update passing through: its phase, the time left before its deadline if it
      carries one, the reading if the registry has one, whether aborting is enabled
      in the environment, and what the machine makes of a projection too large for
      a Duration, which the language leaves open. */
  datatype Call = Call(phase: Phase, left: Option<int64>, reading: Option<Reading>, enabled: bool, overflow: int64)

  /** Whether a reader is wired, whether anything can be aborted, and the download's
      size. */
  datatype Setup = Setup(wired: bool, canAbort: bool, checkpoint: int)

  const ABORT_MIN_WINDOW: real := 90.0
  const ABORT_CONSECUTIVE: nat := 3
  const ABORT_SLACK: real := 1.5

  datatype State = State(hopeless: nat, reachedLoad: bool)

  datatype Outcome = Outcome(state: State, phase: Phase, aborts: bool)

  // ----- One call ---------------------------------------------------------

  /** There is a reading, with a rate, for an update that can be refined. */
  predicate Measured(p: Setup, c: Call) {
    p.wired && c.phase == EngineInit && c.reading.Some? && c.reading.value.available && c.reading.value.interval > 0.0
  }

  /** The judge has what it needs to form an opinion. */
  predicate Judged(p: Setup, c: Call) {
    Measured(p, c) && p.canAbort && p.checkpoint > 0 && c.left.Some? && c.enabled
  }

  /** How long the rest of the download takes at this rate, in whole nanoseconds. */
  function Projection(p: Setup, c: Call): int
    requires c.reading.Some? && c.reading.value.rate > 0.0
  {
    ((p.checkpoint - c.reading.value.local) as real / c.reading.value.rate * SECOND).Floor
  }

  /** The projection as a Duration. */
  function Needed(p: Setup, c: Call): int64
    requires c.reading.Some? && c.reading.value.rate > 0.0 && c.reading.value.local < p.checkpoint
  {
    var n := Projection(p, c);
    ProjectionPositive(p, c);
    if n < TWO_TO_63 then n else c.overflow
  }

  lemma ProjectionPositive(p: Setup, c: Call)
    requires c.reading.Some? && c.reading.value.rate > 0.0 && c.reading.value.local < p.checkpoint
    ensures Projection(p, c) >= 0
  {
    assert (p.checkpoint - c.reading.value.local) as real / c.reading.value.rate >= 0.0;
  }

  /** A positive rate, measured for long enough, with bytes and time left. */
  predicate Projectable(p: Setup, c: Call) {
    Judged(p, c)
    && var r := c.reading.value;
       r.rate > 0.0 && r.interval >= ABORT_MIN_WINDOW && r.local < p.checkpoint && c.left.value > 0
  }

  /** The download needs more than one and a half times what is left. */
  predicate TooSlow(p: Setup, c: Call) {
    Projectable(p, c) && Projection(p, c) as real > c.left.value as real * ABORT_SLACK
  }

  /** The code finds so. */
  predicate Hopeless(p: Setup, c: Call) {
    Projectable(p, c) && Needed(p, c) as real > c.left.value as real * ABORT_SLACK
  }

  predicate InRange(p: Setup, c: Call)
    requires c.reading.Some? && c.reading.value.rate > 0.0
  {
    Projection(p, c) < TWO_TO_63
  }

  /** An opinion that is not hopeless. */
  predicate Resets(p: Setup, c: Call) { Judged(p, c) && !Hopeless(p, c) }

  /** Bytes on disk that are not growing. */
  predicate Loads(p: Setup, c: Call) {
    Measured(p, c) && c.reading.value.rate <= 0.0 && c.reading.value.local > 0
  }

  function Refined(p: Setup, s: State, c: Call): Outcome {
    var judged := Judged(p, c) && !s.reachedLoad;
    var hopeless := if !judged then s.hopeless else if Hopeless(p, c) then s.hopeless + 1 else 0;
    Outcome(
      State(hopeless, s.reachedLoad || Loads(p, c)),
      if Loads(p, c) then EngineLoad
      else if Measured(p, c) && c.reading.value.rate > 0.0 && !s.reachedLoad then EngineDownload
      else c.phase,
      judged && Hopeless(p, c) && hopeless >= ABORT_CONSECUTIVE)
  }

  class PhaseRefiner {
    const setup: Setup
    var hopeless: nat
    var reachedLoad: bool

    constructor (p: Setup)
      ensures setup == p && hopeless == 0 && !reachedLoad
    {
      setup, hopeless, reachedLoad := p, 0, false;
    }

    ghost function Value(): State
      reads this
    {
      State(hopeless, reachedLoad)
    }

    method Judge(c: Call, s: Reading) returns (aborts: bool)
      requires Measured(setup, c) && c.reading == Some(s)
      modifies this`hopeless
      ensures var o := Refined(setup, old(Value()), c);
              hopeless == o.state.hopeless && aborts == o.aborts
    {
      if !setup.canAbort || setup.checkpoint <= 0 || c.left.None? || !c.enabled {
        return false;
      }
      if reachedLoad {
        return false;
      }
      if s.rate <= 0.0 || s.interval < ABORT_MIN_WINDOW {
        hopeless := 0;
        return false;
      }
      var remaining := setup.checkpoint - s.local;
      if remaining <= 0 {
        hopeless := 0;
        return false;
      }
      var projected := (remaining as real / s.rate * SECOND).Floor;
      var needed := if projected < TWO_TO_63 then projected else c.overflow;
      var left := c.left.value;
      if left <= 0 || needed as real <= left as real * ABORT_SLACK {
        hopeless := 0;
        return false;
      }
      hopeless := hopeless + 1;
      return hopeless >= ABORT_CONSECUTIVE;
    }

    method Refine(c: Call) returns (phase: Phase, aborts: bool)
      modifies this`hopeless, this`reachedLoad
      ensures Outcome(Value(), phase, aborts) == Refined(setup, old(Value()), c)
    {
      if !setup.wired || c.phase != EngineInit {
        return c.phase, false;
      }
      if c.reading.None? || !c.reading.value.available {
        return c.phase, false;
      }
      var s := c.reading.value;
      if s.interval <= 0.0 {
        return c.phase, false;
      }
      aborts := Judge(c, s);
      if s.rate > 0.0 {
        if reachedLoad {
          return c.phase, aborts;
        }
        return EngineDownload, aborts;
      } else if s.local > 0 {
        reachedLoad := true;
        return EngineLoad, aborts;
      }
      return c.phase, aborts;
    }
  }

  // ----- Runs -------------------------------------------------------------

  function Exec(p: Setup, run: seq<Call>): State {
    if run == [] then State(0, false) else Refined(p, Exec(p, run[..|run| - 1]), run[|run| - 1]).state
  }

  /** What the k-th call emits, and whether it aborts the deploy. */
  function Emitted(p: Setup, run: seq<Call>, k: nat): Phase
    requires k < |run|
  {
    Refined(p, Exec(p, run[..k]), run[k]).phase
  }

  predicate AbortsAt(p: Setup, run: seq<Call>, k: nat)
    requires k < |run|
  {
    Refined(p, Exec(p, run[..k]), run[k]).aborts
  }

  // ----- The latch --------------------------------------------------------

  predicate LoadedIn(p: Setup, run: seq<Call>) { exists j :: 0 <= j < |run| && Loads(p, run[j]) }

  /** The latch remembers whether any reading so far showed bytes at rest. */
  lemma {:induction false} LatchIff(p: Setup, run: seq<Call>)
    ensures Exec(p, run).reachedLoad <==> LoadedIn(p, run)
    decreases |run|
  {
    if run != [] {
      var n := |run| - 1;
      LatchIff(p, run[..n]);
      assert forall j :: 0 <= j < n ==> run[..n][j] == run[j];
      if LoadedIn(p, run[..n]) {
        var j :| 0 <= j < |run[..n]| && Loads(p, run[..n][j]);
        assert Loads(p, run[j]);
      }
    }
  }

  /** engine:download is emitted exactly when bytes are arriving and none of the
      earlier readings showed them at rest, so never after engine:load. */
  lemma DownloadIff(p: Setup, run: seq<Call>, k: nat)
    requires k < |run| && run[k].phase != EngineDownload
    ensures Emitted(p, run, k) == EngineDownload
       <==> Measured(p, run[k]) && run[k].reading.value.rate > 0.0 && !LoadedIn(p, run[..k])
  {
    LatchIff(p, run[..k]);
  }

  lemma NoDownloadAfterLoad(p: Setup, run: seq<Call>, j: nat, k: nat)
    requires j < k < |run| && Emitted(p, run, j) == EngineLoad
    requires run[j].phase != EngineLoad && run[k].phase != EngineDownload
    ensures Emitted(p, run, k) != EngineDownload
  {
    DownloadIff(p, run, k);
    assert run[..k][j] == run[j] && Loads(p, run[j]);
  }

  // ----- Aborting ---------------------------------------------------------

  /** Hopeless readings since the last one that was not. */
  function Run(p: Setup, run: seq<Call>): nat {
    if run == [] then 0
    else
      var n := |run| - 1;
      if Resets(p, run[n]) then 0
      else Run(p, run[..n]) + if Hopeless(p, run[n]) then 1 else 0
  }

  lemma {:induction false} CounterIsRun(p: Setup, run: seq<Call>)
    requires !LoadedIn(p, run)
    ensures Exec(p, run).hopeless == Run(p, run)
    decreases |run|
  {
    if run != [] {
      var n := |run| - 1;
      var run' := run[..n];
      assert forall j :: 0 <= j < n ==> run'[j] == run[j];
      assert !LoadedIn(p, run');
      LatchIff(p, run');
      CounterIsRun(p, run');
    }
  }

  /** Reading j was hopeless and none since spoke against it. */
  predicate Stands(p: Setup, run: seq<Call>, j: nat) {
    j < |run| && Hopeless(p, run[j]) && forall m :: j < m < |run| ==> !Resets(p, run[m])
  }

  ghost predicate OneStands(p: Setup, run: seq<Call>) { exists j: nat :: Stands(p, run, j) }

  ghost predicate TwoStand(p: Setup, run: seq<Call>) {
    exists i: nat, j: nat :: i < j && Stands(p, run, i) && Stands(p, run, j)
  }

  lemma StandsPrefix(p: Setup, run: seq<Call>, j: nat)
    requires run != [] && j < |run| - 1
    ensures Stands(p, run, j) <==> Stands(p, run[..|run| - 1], j) && !Resets(p, run[|run| - 1])
  {
    var run' := run[..|run| - 1];
    assert forall m :: 0 <= m < |run'| ==> run'[m] == run[m];
    if Stands(p, run', j) && !Resets(p, run[|run| - 1]) {
      forall m | j < m < |run|
        ensures !Resets(p, run[m])
      {
        if m < |run'| {
          assert !Resets(p, run'[m]);
        }
      }
    }
  }

  lemma {:induction false} RunCounts(p: Setup, run: seq<Call>)
    ensures Run(p, run) >= 1 <==> OneStands(p, run)
    ensures Run(p, run) >= 2 <==> TwoStand(p, run)
    decreases |run|
  {
    if run == [] {
      return;
    }
    var n := |run| - 1;
    RunCounts(p, run[..n]);
    if Resets(p, run[n]) {
      forall j: nat
        ensures !Stands(p, run, j)
      {
      }
      assert Run(p, run) == 0 && !OneStands(p, run) && !TwoStand(p, run);
    } else {
      StandingGrows(p, run);
    }
  }

  lemma StandingGrows(p: Setup, run: seq<Call>)
    requires run != [] && !Resets(p, run[|run| - 1])
    ensures var n := |run| - 1;
            && (OneStands(p, run) <==> OneStands(p, run[..n]) || Hopeless(p, run[n]))
            && (TwoStand(p, run) <==> TwoStand(p, run[..n]) || (OneStands(p, run[..n]) && Hopeless(p, run[n])))
  {
    var n := |run| - 1;
    forall j: nat | j < n
      ensures Stands(p, run, j) <==> Stands(p, run[..n], j)
    {
      StandsPrefix(p, run, j);
    }
    assert Stands(p, run, n) <==> Hopeless(p, run[n]);
    if OneStands(p, run[..n]) {
      var j: nat :| Stands(p, run[..n], j);
      assert Stands(p, run, j);
    }
    if TwoStand(p, run[..n]) {
      var i: nat, j: nat :| i < j && Stands(p, run[..n], i) && Stands(p, run[..n], j);
      assert Stands(p, run, i) && Stands(p, run, j);
    }
  }

  /** The judgement in numbers. */
  lemma TooSlowInNumbers(p: Setup, c: Call)
    ensures TooSlow(p, c)
       <==> && p.wired && p.canAbort && p.checkpoint > 0 && c.phase == EngineInit && c.enabled
            && c.left.Some? && c.left.value > 0 && c.reading.Some? && c.reading.value.available
            && c.reading.value.interval >= 90.0 && c.reading.value.rate > 0.0 && c.reading.value.local < p.checkpoint
            && 2 * Projection(p, c) > 3 * c.left.value
    ensures c.reading.Some? && c.reading.value.rate > 0.0 ==>
              var bytes := (p.checkpoint - c.reading.value.local) as real;
              var n := Projection(p, c) as real;
              n <= bytes / c.reading.value.rate * 1_000_000_000.0 < n + 1.0
  {
  }

  /** What one call emits: bytes at rest read as loading; bytes arriving as a download,
      unless loading has been seen; every other update passes through as it is. */
  lemma EmittedTable(p: Setup, run: seq<Call>, k: nat)
    requires k < |run|
    ensures var c := run[k];
            var measured := p.wired && c.phase == EngineInit && c.reading.Some? && c.reading.value.available
                            && c.reading.value.interval > 0.0;
            Emitted(p, run, k) == if measured && c.reading.value.rate <= 0.0 && c.reading.value.local > 0 then EngineLoad
                                  else if measured && c.reading.value.rate > 0.0 && !LoadedIn(p, run[..k]) then EngineDownload
                                  else c.phase
  {
    LatchIff(p, run[..k]);
  }

  /** What the code finds hopeless is what is too slow, as long as the projection fits
      a Duration. Past that, some 292 years, it is what the overflow makes of it. */
  lemma HopelessIff(p: Setup, c: Call)
    ensures Hopeless(p, c) <==> TooSlow(p, c) && (InRange(p, c) || c.overflow as real > c.left.value as real * ABORT_SLACK)
  {
    if Projectable(p, c) && !InRange(p, c) {
      assert Projection(p, c) > c.overflow;
    }
  }

  /** Where an overflow reads as the least Duration, as on amd64, the slowest downloads
      speak against aborting: such a reading resets the count. */
  lemma OverflowResets(p: Setup, c: Call)
    requires Projectable(p, c) && !InRange(p, c) && c.overflow == MIN_INT64
    ensures Resets(p, c)
  {
    HopelessIff(p, c);
  }

  /** 700 GB at 75 bytes a second, with an hour left. */
  lemma SlowestDownloadResets()
    ensures var p := Setup(true, true, 700_000_000_000);
            var c := Call(EngineInit, Some(3_600_000_000_000), Some(Reading(true, 100.0, 75.0, 0)), true, MIN_INT64);
            TooSlow(p, c) && !InRange(p, c) && Resets(p, c)
  {
    var p := Setup(true, true, 700_000_000_000);
    var c := Call(EngineInit, Some(3_600_000_000_000), Some(Reading(true, 100.0, 75.0, 0)), true, MIN_INT64);
    assert 700_000_000_000.0 / 75.0 * SECOND > 9_300_000_000_000_000_000.0;
    assert Projection(p, c) >= 9_300_000_000_000_000_000;
    OverflowResets(p, c);
  }

  /** A call aborts the deploy exactly when its reading is hopeless, two earlier ones
      were, none in between said otherwise, and loading has never been seen. In
      particular a rate of zero never aborts, and nothing aborts after the load
      latch. */
  lemma AbortIff(p: Setup, run: seq<Call>, k: nat)
    requires k < |run|
    ensures AbortsAt(p, run, k)
       <==> Hopeless(p, run[k]) && TwoStand(p, run[..k]) && !LoadedIn(p, run[..k])
    ensures Hopeless(p, run[k])
       <==> TooSlow(p, run[k])
            && (InRange(p, run[k]) || run[k].overflow as real > run[k].left.value as real * ABORT_SLACK)
  {
    HopelessIff(p, run[k]);
    LatchIff(p, run[..k]);
    RunCounts(p, run[..k]);
    if !LoadedIn(p, run[..k]) {
      CounterIsRun(p, run[..k]);
    }
  }
}
