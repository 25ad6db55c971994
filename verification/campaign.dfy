/** The continuous research campaign: waves of cycles until the work, the budget, the cycle cap, the
    error budget or the operator stops it.

    Cancel requests, budget reads, the threads still open and every cycle's outcome are arbitrary; a
    cancel request, once made, stays. */
module Campaign {
  import opened Common

  const CONCURRENCY_HARD_CAP := 4

  datatype Settings = Settings(maxCycles: int, concurrency: int, errorBudget: int, orchestrationMaxPasses: int)

  function ResolveMaxCycles(requested: Option<int>, cfg: Settings): (r: int)
    ensures r <= cfg.maxCycles
    ensures cfg.maxCycles >= 1 ==> r >= 1
  {
    if requested.None? then cfg.maxCycles else Min(Max(1, requested.value), cfg.maxCycles)
  }

  /** At least one, at most the hard cap and what is configured, and what was asked for when that fits. */
  function ResolveConcurrency(requested: Option<int>, cfg: Settings): (r: nat)
    ensures 1 <= r <= CONCURRENCY_HARD_CAP && (cfg.concurrency >= 1 ==> r <= cfg.concurrency)
    ensures requested.Some? && 1 <= requested.value <= Min(cfg.concurrency, CONCURRENCY_HARD_CAP) ==> r == requested.value
    ensures requested.None? && 1 <= cfg.concurrency <= CONCURRENCY_HARD_CAP ==> r == cfg.concurrency
  {
    var cap := Min(Max(1, cfg.concurrency), CONCURRENCY_HARD_CAP);
    if requested.None? then cap else Min(Max(1, requested.value), cap)
  }

  /** How many cycles to start: no more than the concurrency and the cycles left, and each one past the
      first still has threads the ones before it cannot cover. */
  function CycleSlots(concurrency: nat, remaining: int, eligible: nat, maxPasses: int): (r: nat)
    requires concurrency >= 1
    ensures r == 0 <==> remaining <= 0 || eligible == 0
    ensures r <= concurrency && (r > 0 ==> r <= remaining && (r - 1) * Max(1, maxPasses) < eligible)
  {
    if remaining <= 0 || eligible == 0 then 0
    else
      var perScan := Max(1, maxPasses);
      var needed := (eligible + perScan - 1) / perScan;
      Ceiling(eligible, perScan);
      var r := Min(Min(concurrency, remaining), Max(1, needed));
      LeftOver(r - 1, needed - 1, perScan, eligible);
      r
  }

  lemma Ceiling(n: nat, d: nat)
    requires n > 0 && d > 0
    ensures 1 <= (n + d - 1) / d && ((n + d - 1) / d - 1) * d < n
  {
    var q := (n + d - 1) / d;
    assert q * d <= n + d - 1 < q * d + d;
    assert (q - 1) * d == q * d - d;
  }

  lemma Scale(a: int, b: int, d: nat)
    requires a <= b
    ensures a * d <= b * d
  {
  }

  lemma LeftOver(a: int, b: int, d: nat, n: nat)
    requires a <= b && b * d < n
    ensures a * d < n
  {
    Scale(a, b, d);
  }

  // ----- rows -----

  datatype OrchestrationStop = MaxPasses | NothingOpen | PotEmpty | OrchestrationCancelled | OrchestrationError

  datatype Outcome =
    | StartFailed(error: string)
    | Raised(error: string)
    | Finished(failed: bool, stop: OrchestrationStop, passes: nat)

  datatype Row = Row(cycle: nat, wave: nat, outcome: Outcome, parallelWith: seq<nat>)

  /** The row of the i-th planned cycle of a wave. */
  function RowOf(planned: seq<nat>, i: nat, waveNumber: nat, w: World): Row
    requires i < |planned|
  {
    Row(planned[i], waveNumber, w.outcome(planned[i]), planned[..i] + planned[i + 1..])
  }

  function RowsOf(planned: seq<nat>, n: nat, waveNumber: nat, w: World): (rows: seq<Row>)
    requires n <= |planned|
    ensures |rows| == n && forall i :: 0 <= i < n ==> rows[i] == RowOf(planned, i, waveNumber, w)
  {
    if n == 0 then [] else RowsOf(planned, n - 1, waveNumber, w) + [RowOf(planned, n - 1, waveNumber, w)]
  }

  lemma NextRow(before: seq<Row>, recorded: seq<Row>, row: Row)
    ensures (before + recorded) + [row] == before + (recorded + [row])
  {
  }

  predicate Failed(row: Row) {
    !row.outcome.Finished? || row.outcome.failed || row.outcome.stop == OrchestrationError
  }

  predicate StoppedAs(row: Row, stop: OrchestrationStop) {
    row.outcome.Finished? && row.outcome.stop == stop
  }

  /** How many failed rows the list ends with. */
  function Trailing(rows: seq<Row>): nat {
    if rows == [] || !Failed(rows[|rows| - 1]) then 0 else 1 + Trailing(rows[..|rows| - 1])
  }

  function FinishedRows(rows: seq<Row>): nat {
    if rows == [] then 0
    else FinishedRows(rows[..|rows| - 1]) + if rows[|rows| - 1].outcome.Finished? then 1 else 0
  }

  /** How many rows the list ends with that share the last one's wave. */
  function LastWaveWidth(rows: seq<Row>): nat {
    if rows == [] then 0
    else if |rows| >= 2 && rows[|rows| - 2].wave == rows[|rows| - 1].wave then 1 + LastWaveWidth(rows[..|rows| - 1])
    else 1
  }

  /** At every moment: rows numbered from 1, waves in order and at most `width` wide, and fewer than
      `failures` failed rows in a row. */
  predicate Sound(rows: seq<Row>, width: nat, failures: int) {
    rows != [] ==>
      var last := rows[|rows| - 1];
      && Sound(rows[..|rows| - 1], width, failures)
      && last.cycle == |rows|
      && (|rows| >= 2 ==> rows[|rows| - 2].wave <= last.wave)
      && LastWaveWidth(rows) <= width
      && Trailing(rows) < failures
  }

  /** At most `nth` rows of wave `wave` have been recorded so far, and none of a later one. */
  predicate WaveSoFar(rows: seq<Row>, wave: nat, nth: nat) {
    rows != [] ==> rows[|rows| - 1].wave <= wave && (rows[|rows| - 1].wave == wave ==> LastWaveWidth(rows) <= nth)
  }

  predicate Counts(rows: seq<Row>, consecutive: nat, completed: nat, width: nat, failures: int) {
    Sound(rows, width, failures) && consecutive == Trailing(rows) && completed == FinishedRows(rows)
  }

  lemma CountRow(rows: seq<Row>, row: Row, nth: nat, consecutive: nat, completed: nat, width: nat, failures: int)
    requires Counts(rows, consecutive, completed, width, failures) && row.cycle == |rows| + 1
    requires nth < width && consecutive + 1 < failures
    requires WaveSoFar(rows, row.wave, nth)
    ensures Counts(rows + [row], if Failed(row) then consecutive + 1 else 0,
                   completed + if row.outcome.Finished? then 1 else 0, width, failures)
    ensures WaveSoFar(rows + [row], row.wave, nth + 1)
  {
    AppendRow(rows, row, width, failures);
  }

  lemma AppendRow(rows: seq<Row>, row: Row, width: nat, failures: int)
    ensures Trailing(rows + [row]) == if Failed(row) then Trailing(rows) + 1 else 0
    ensures FinishedRows(rows + [row]) == FinishedRows(rows) + if row.outcome.Finished? then 1 else 0
    ensures LastWaveWidth(rows + [row])
         == if rows != [] && rows[|rows| - 1].wave == row.wave then LastWaveWidth(rows) + 1 else 1
    ensures Sound(rows + [row], width, failures) <==>
              && Sound(rows, width, failures)
              && row.cycle == |rows| + 1
              && (rows != [] ==> rows[|rows| - 1].wave <= row.wave)
              && LastWaveWidth(rows + [row]) <= width
              && Trailing(rows + [row]) < failures
  {
    assert (rows + [row])[..|rows|] == rows;
  }

  // ----- stopping -----

  datatype Stop = MaxCycles | Cancelled | BudgetExhausted | NoOpenWork | ErrorBudget | CampaignError

  /** What the wave just recorded says about going on; None starts the next wave. */
  function Verdict(cancelRequested: bool, recorded: seq<Row>, available: int, consecutive: nat, errorBudget: int): Option<Stop> {
    if cancelRequested || exists r :: r in recorded && StoppedAs(r, OrchestrationCancelled) then Some(Cancelled)
    else if (exists r :: r in recorded && StoppedAs(r, PotEmpty)) || available <= 0 then Some(BudgetExhausted)
    else if !(exists r :: r in recorded && StoppedAs(r, MaxPasses)) && (FullScan(recorded) || EmptyScan(recorded)) then
      Some(NoOpenWork)
    else if consecutive >= errorBudget then Some(ErrorBudget)
    else None
  }

  predicate FullScan(recorded: seq<Row>) {
    exists r :: r in recorded && StoppedAs(r, NothingOpen) && r.outcome.passes > 0
  }

  predicate EmptyScan(recorded: seq<Row>) {
    && (forall r :: r in recorded && r.outcome.Finished? ==> StoppedAs(r, NothingOpen) && r.outcome.passes == 0)
    && (forall r :: r in recorded ==> r.outcome.Finished?)
  }

  /** A wave is never read as "nothing left to do" unless one of its cycles really found that, and a
      cycle that hit its own pass cap always means more work. */
  lemma NoOpenWorkIsWitnessed(cancelRequested: bool, recorded: seq<Row>, available: int, consecutive: nat, errorBudget: int)
    requires recorded != []
    ensures Verdict(cancelRequested, recorded, available, consecutive, errorBudget) == Some(NoOpenWork) ==>
              && !cancelRequested && available > 0
              && (exists r :: r in recorded && StoppedAs(r, NothingOpen))
              && (forall r :: r in recorded ==> !StoppedAs(r, MaxPasses))
  {
    if Verdict(cancelRequested, recorded, available, consecutive, errorBudget) == Some(NoOpenWork) && EmptyScan(recorded) {
      assert recorded[0] in recorded;
    }
  }

  // ----- the loop -----

  /** Everything the loop asks the outside: the n-th reload's cancel flag, the n-th budget read, the n-th
      count of eligible threads, the actor at wave n, whether wave n dies on an unexpected error, and what
      starting and running cycle n does. */
  datatype World = World(cancelled: nat -> bool, available: nat -> int, eligible: nat -> nat, actorExists: nat -> bool,
                         crashes: nat -> bool, outcome: nat -> Outcome)

  /** How many reads of each kind the loop has made, and how many waves it has started. */
  datatype Reads = Reads(reloads: nat, budgets: nat, scans: nat, waves: nat)

  /** A cancel request is never withdrawn. */
  ghost predicate CancelStays(w: World) {
    forall i: nat, j: nat :: i <= j && w.cancelled(i) ==> w.cancelled(j)
  }

  /** Some row of the wave ended this way. */
  predicate WaveStopped(cycles: seq<Row>, wave: nat, stop: OrchestrationStop) {
    exists r :: r in cycles && r.wave == wave && StoppedAs(r, stop)
  }

  predicate LastReloadCancelled(w: World, seen: Reads) {
    seen.reloads > 0 && w.cancelled(seen.reloads - 1)
  }

  /** The last budget read found nothing. */
  predicate LastReadEmpty(w: World, seen: Reads) {
    seen.budgets > 0 && w.available(seen.budgets - 1) <= 0
  }

  /** The last count of eligible threads was zero. */
  predicate LastScanEmpty(w: World, seen: Reads) {
    seen.scans > 0 && w.eligible(seen.scans - 1) == 0
  }

  /** Why a campaign ended: from the last read it made of each kind and the rows of its last wave. */
  predicate StopMeans(stop: Stop, cycles: seq<Row>, errorBudget: int, w: World, seen: Reads) {
    && (stop == Cancelled ==> LastReloadCancelled(w, seen) || WaveStopped(cycles, seen.waves, OrchestrationCancelled))
    && (stop == BudgetExhausted ==>
          && !LastReloadCancelled(w, seen)
          && (LastReadEmpty(w, seen) || WaveStopped(cycles, seen.waves, PotEmpty)))
    && (stop == NoOpenWork ==>
          && !LastReloadCancelled(w, seen)
          && (LastScanEmpty(w, seen)
              || (&& WaveStopped(cycles, seen.waves, NothingOpen) && !WaveStopped(cycles, seen.waves, MaxPasses)
                  && !LastReadEmpty(w, seen))))
    && (stop == ErrorBudget ==> !LastReloadCancelled(w, seen) && cycles != [] && Trailing(cycles) >= errorBudget)
  }

  /** Every row belongs to a wave before this one. */
  lemma {:induction false} EarlierWaves(rows: seq<Row>, width: nat, failures: int, wave: nat, r: Row)
    requires Sound(rows, width, failures) && WaveSoFar(rows, wave, 0) && r in rows
    ensures r.wave < wave
  {
    var init, last := rows[..|rows| - 1], rows[|rows| - 1];
    assert rows == init + [last];
    if r in init {
      EarlierWaves(init, width, failures, last.wave + 1, r);
    }
  }

  /** The rows of the wave just recorded are exactly those carrying its number. */
  lemma WaveIsRecorded(before: seq<Row>, recorded: seq<Row>, width: nat, failures: int, wave: nat, stop: OrchestrationStop)
    requires Sound(before, width, failures) && WaveSoFar(before, wave, 0)
    requires forall r :: r in recorded ==> r.wave == wave
    ensures WaveStopped(before + recorded, wave, stop) <==> exists r :: r in recorded && StoppedAs(r, stop)
  {
    forall r | r in before ensures r.wave != wave {
      EarlierWaves(before, width, failures, wave, r);
    }
    forall r | r in recorded ensures r in before + recorded {
    }
  }

  lemma VerdictMeans(stop: Stop, before: seq<Row>, recorded: seq<Row>, width: nat, failures: int, errorBudget: int,
                     w: World, seen: Reads)
    requires Sound(before, width, failures) && WaveSoFar(before, seen.waves, 0)
    requires recorded != [] && forall r :: r in recorded ==> r.wave == seen.waves
    requires seen.budgets > 0 && seen.reloads > 0
    requires Verdict(w.cancelled(seen.reloads - 1), recorded, w.available(seen.budgets - 1), Trailing(before + recorded), errorBudget)
          == Some(stop)
    ensures StopMeans(stop, before + recorded, errorBudget, w, seen)
  {
    NoOpenWorkIsWitnessed(w.cancelled(seen.reloads - 1), recorded, w.available(seen.budgets - 1),
                          Trailing(before + recorded), errorBudget);
    WaveIsRecorded(before, recorded, width, failures, seen.waves, OrchestrationCancelled);
    WaveIsRecorded(before, recorded, width, failures, seen.waves, PotEmpty);
    WaveIsRecorded(before, recorded, width, failures, seen.waves, NothingOpen);
    WaveIsRecorded(before, recorded, width, failures, seen.waves, MaxPasses);
  }

  datatype Status = Running | Completed | CampaignFailed

  class ResearchCampaign {
    var status: Status
    var stopReason: Option<Stop>
    var cancelRequested: bool
    var currentCycle: nat
    var cyclesCompleted: nat
    var consecutiveErrors: nat
    var cycles: seq<Row>
    const maxCycles: int
    const concurrency: nat
    const errorBudget: int

    constructor (requested: Option<int>, cfg: Settings)
      ensures Good() && status == Running && cycles == [] && currentCycle == 0 && !cancelRequested
      ensures maxCycles == ResolveMaxCycles(requested, cfg) && concurrency == ResolveConcurrency(None, cfg)
      ensures errorBudget == cfg.errorBudget
    {
      status, stopReason, cancelRequested := Running, None, false;
      currentCycle, cyclesCompleted, consecutiveErrors, cycles := 0, 0, 0, [];
      maxCycles, concurrency, errorBudget := ResolveMaxCycles(requested, cfg), ResolveConcurrency(None, cfg), cfg.errorBudget;
    }

    /** One failure more than this in a row can never be recorded. */
    function FailureBound(): int {
      Max(1, errorBudget) + concurrency
    }

    /** The counters are what the recorded rows say. */
    predicate Good()
      reads this
    {
      && concurrency >= 1
      && |cycles| <= currentCycle <= Max(0, maxCycles)
      && Counts(cycles, consecutiveErrors, cyclesCompleted, concurrency, FailureBound())
    }

    /** Ask a running campaign to stop; refused once it has ended. */
    method RequestCancel() returns (accepted: bool)
      modifies `cancelRequested
      ensures accepted == (status == Running)
      ensures cancelRequested == (old(cancelRequested) || accepted)
    {
      if status != Running {
        return false;
      }
      cancelRequested := true;
      return true;
    }

    method Finalize(end: Status, reason: Stop)
      modifies `status, `stopReason
      ensures status == end && stopReason == Some(reason)
    {
      status, stopReason := end, Some(reason);
    }

    /** Start up to `slots` cycles, re-reading the cancel flag before each one. */
    method PlanWave(slots: nat, w: World, seen0: Reads) returns (planned: seq<nat>, seen: Reads)
      requires CancelStays(w)
      modifies `currentCycle, `cancelRequested
      ensures |planned| <= slots && currentCycle == old(currentCycle) + |planned|
      ensures forall i :: 0 <= i < |planned| ==> planned[i] == old(currentCycle) + i + 1
      ensures planned != [] ==> currentCycle <= maxCycles
      ensures planned == [] ==> slots == 0 || old(currentCycle) >= maxCycles || w.cancelled(seen.reloads)
      ensures seen == seen0.(reloads := seen.reloads) && seen.reloads >= seen0.reloads
    {
      planned := [];
      seen := seen0;
      for k := 0 to slots
        invariant |planned| == k && currentCycle == old(currentCycle) + k
        invariant forall i :: 0 <= i < k ==> planned[i] == old(currentCycle) + i + 1
        invariant k > 0 ==> currentCycle <= maxCycles
        invariant seen == seen0.(reloads := seen.reloads) && seen.reloads >= seen0.reloads
      {
        cancelRequested := w.cancelled(seen.reloads);
        seen := seen.(reloads := seen.reloads + 1);
        if cancelRequested || currentCycle >= maxCycles {
          return planned, seen;
        }
        currentCycle := currentCycle + 1;
        planned := planned + [currentCycle];
      }
    }

    /** Append one row of wave number `row.wave`, the `nth` of that wave, and count it. */
    method RecordRow(row: Row, nth: nat)
      requires Good() && |cycles| < currentCycle && row.cycle == |cycles| + 1
      requires nth < concurrency && consecutiveErrors < Max(1, errorBudget) + nth
      requires WaveSoFar(cycles, row.wave, nth)
      modifies `cycles, `consecutiveErrors, `cyclesCompleted
      ensures Good() && cycles == old(cycles) + [row]
      ensures consecutiveErrors <= old(consecutiveErrors) + 1 && WaveSoFar(cycles, row.wave, nth + 1)
    {
      CountRow(cycles, row, nth, consecutiveErrors, cyclesCompleted, concurrency, FailureBound());
      if row.outcome.Finished? {
        cyclesCompleted := cyclesCompleted + 1;
      }
      consecutiveErrors := if Failed(row) then consecutiveErrors + 1 else 0;
      cycles := cycles + [row];
    }

    /** Record the wave's rows, counting completions and consecutive errors. */
    method RecordWave(planned: seq<nat>, waveNumber: nat, w: World) returns (recorded: seq<Row>)
      requires Good() && |planned| <= concurrency
      requires consecutiveErrors < Max(1, errorBudget)
      requires |cycles| + |planned| <= currentCycle
      requires forall i :: 0 <= i < |planned| ==> planned[i] == |cycles| + i + 1
      requires WaveSoFar(cycles, waveNumber, 0)
      modifies `cycles, `consecutiveErrors, `cyclesCompleted
      ensures Good() && WaveSoFar(cycles, waveNumber, |planned|)
      ensures recorded == RowsOf(planned, |planned|, waveNumber, w) && cycles == old(cycles) + recorded
    {
      recorded := [];
      ghost var before := cycles;
      assert before + recorded == before;
      for i := 0 to |planned|
        invariant Good() && WaveSoFar(cycles, waveNumber, i)
        invariant recorded == RowsOf(planned, i, waveNumber, w)
        invariant cycles == before + recorded && |cycles| == |before| + i
        invariant consecutiveErrors < Max(1, errorBudget) + i
      {
        var row := RowOf(planned, i, waveNumber, w);
        RecordRow(row, i);
        NextRow(before, recorded, row);
        recorded := recorded + [row];
      }
    }

    /** Plan, run and record one wave; None when it died before recording. */
    method RunWave(slots: nat, waveNumber: nat, w: World, seen0: Reads) returns (recorded: Option<seq<Row>>, seen: Reads)
      requires CancelStays(w) && 1 <= slots <= concurrency
      requires Good() && |cycles| == currentCycle < maxCycles
      requires consecutiveErrors < Max(1, errorBudget)
      requires WaveSoFar(cycles, waveNumber, 0)
      modifies `currentCycle, `cancelRequested, `cycles, `consecutiveErrors, `cyclesCompleted
      ensures Good() && currentCycle >= old(currentCycle)
      ensures seen == seen0.(reloads := seen.reloads) && seen.reloads >= seen0.reloads
      ensures recorded.None? ==> currentCycle <= |cycles| + concurrency
      ensures recorded.Some? ==>
                && cycles == old(cycles) + recorded.value && |cycles| == currentCycle
                && WaveSoFar(cycles, waveNumber + 1, 0)
                && seen.reloads > 0 && cancelRequested == w.cancelled(seen.reloads - 1)
                && forall r :: r in recorded.value ==> r.wave == waveNumber
      ensures recorded == Some([]) ==> w.cancelled(seen.reloads)
    {
      var planned;
      planned, seen := PlanWave(slots, w, seen0);
      if w.crashes(waveNumber) {
        return None, seen;
      }
      cancelRequested := w.cancelled(seen.reloads);
      seen := seen.(reloads := seen.reloads + 1);
      var rows := RecordWave(planned, waveNumber, w);
      forall r | r in rows ensures r.wave == waveNumber {
        var i :| 0 <= i < |rows| && rows[i] == r;
        assert rows[i] == RowOf(planned, i, waveNumber, w);
      }
      return Some(rows), seen;
    }

    /** The checks before a wave: cancelled, out of cycles, nothing open, out of money; otherwise how many
        cycles to start - at least one, so the guard for an empty wave never fires. */
    method OpenWave(w: World, maxPasses: int, seen0: Reads) returns (stop: Option<Stop>, slots: nat, seen: Reads)
      requires Good() && |cycles| == currentCycle
      modifies `cancelRequested
      ensures seen.reloads == seen0.reloads + 1 && seen.waves == seen0.waves
      ensures stop.None? ==> 1 <= slots <= concurrency && currentCycle < maxCycles && !w.cancelled(seen0.reloads)
      ensures stop.Some? ==> StopMeans(stop.value, cycles, errorBudget, w, seen)
      ensures stop == Some(MaxCycles) ==> currentCycle == Max(0, maxCycles)
      ensures stop.Some? ==> stop.value in {Cancelled, MaxCycles, NoOpenWork, BudgetExhausted}
    {
      slots := 0;
      cancelRequested := w.cancelled(seen0.reloads);
      seen := seen0.(reloads := seen0.reloads + 1);
      if cancelRequested {
        return Some(Cancelled), slots, seen;
      }
      if currentCycle >= maxCycles {
        return Some(MaxCycles), slots, seen;
      }
      var live := w.available(seen.budgets);
      seen := seen.(budgets := seen.budgets + 1);
      var eligible := w.eligible(seen.scans);
      seen := seen.(scans := seen.scans + 1);
      if eligible == 0 {
        return Some(NoOpenWork), slots, seen;
      }
      if live <= 0 {
        return Some(BudgetExhausted), slots, seen;
      }
      slots := CycleSlots(concurrency, maxCycles - currentCycle, eligible, maxPasses);
      return None, slots, seen;
    }

    /** Between waves: everything started is recorded and the error budget is not used up. */
    predicate BetweenWaves(seen: Reads)
      reads this
    {
      && Good() && |cycles| == currentCycle && WaveSoFar(cycles, seen.waves + 1, 0)
      && (cycles == [] || Trailing(cycles) < errorBudget)
    }

    /** How a campaign can end. */
    predicate Ended(w: World, seen: Reads)
      reads this
    {
      && Good() && status != Running && stopReason.Some?
      && (status == Completed ==> |cycles| == currentCycle)
      && (status == CampaignFailed ==> currentCycle <= |cycles| + concurrency && stopReason == Some(CampaignError))
      && (stopReason == Some(MaxCycles) ==>
            currentCycle == Max(0, maxCycles) && (currentCycle > 0 ==> Trailing(cycles) < errorBudget))
      && StopMeans(stopReason.value, cycles, errorBudget, w, seen)
    }

    /** Start, run and record one wave whose checks passed, and read its verdict. */
    method OneWave(w: World, slots: nat, seen0: Reads) returns (ended: bool, seen: Reads)
      requires CancelStays(w) && Good() && |cycles| == currentCycle && WaveSoFar(cycles, seen0.waves, 0)
      requires cycles == [] || Trailing(cycles) < errorBudget
      requires status == Running && 1 <= slots <= concurrency && currentCycle < maxCycles
      modifies this
      ensures ended ==> Ended(w, seen)
      ensures !ended ==> BetweenWaves(seen) && status == Running && seen.reloads >= seen0.reloads
      ensures !ended ==> currentCycle > old(currentCycle) || (currentCycle == old(currentCycle) && w.cancelled(seen.reloads))
    {
      ghost var before := cycles;
      var recorded;
      recorded, seen := RunWave(slots, seen0.waves, w, seen0);
      if recorded.None? {
        Finalize(CampaignFailed, CampaignError);
        return true, seen;
      }
      var live := w.available(seen.budgets);
      seen := seen.(budgets := seen.budgets + 1);
      if recorded.value == [] {
        assert before + [] == before;
        return false, seen;
      }
      var stop := Judge(before, recorded.value, live, w, seen);
      if stop.Some? {
        Finalize(Completed, stop.value);
      }
      return stop.Some?, seen;
    }

    /** Read the verdict on the wave just recorded. */
    method Judge(ghost before: seq<Row>, recorded: seq<Row>, live: int, ghost w: World, ghost seen: Reads)
      returns (stop: Option<Stop>)
      requires Good() && cycles == before + recorded && recorded != []
      requires Sound(before, concurrency, FailureBound()) && WaveSoFar(before, seen.waves, 0)
      requires forall r :: r in recorded ==> r.wave == seen.waves
      requires seen.budgets > 0 && live == w.available(seen.budgets - 1)
      requires seen.reloads > 0 && cancelRequested == w.cancelled(seen.reloads - 1)
      ensures stop.Some? ==> StopMeans(stop.value, cycles, errorBudget, w, seen) && stop != Some(MaxCycles)
      ensures stop.None? ==> Trailing(cycles) < errorBudget
    {
      stop := Verdict(cancelRequested, recorded, live, consecutiveErrors, errorBudget);
      if stop.Some? {
        VerdictMeans(stop.value, before, recorded, concurrency, FailureBound(), errorBudget, w, seen);
      }
    }

    /** The wave loop. It ends for every world, within the cycle cap; the rows are numbered from 1
        without gaps up to the current cycle (a crash can lose only the last wave); and each stop
        reason means what it says of the reads made and of the last wave. */
    method Execute(w: World, maxPasses: int) returns (seen: Reads)
      requires Good() && status == Running && cycles == [] && currentCycle == 0 && CancelStays(w)
      modifies this
      ensures Ended(w, seen)
    {
      seen := Reads(0, 0, 0, 0);
      while true
        invariant BetweenWaves(seen) && status == Running
        decreases Max(0, maxCycles) - currentCycle, if w.cancelled(seen.reloads) then 0 else 1
      {
        var stop, slots;
        stop, slots, seen := OpenWave(w, maxPasses, seen);
        if stop.Some? {
          Finalize(Completed, stop.value);
          return;
        }
        seen := seen.(waves := seen.waves + 1);
        if !w.actorExists(seen.waves) {
          Finalize(CampaignFailed, CampaignError);
          return;
        }
        var ended;
        ended, seen := OneWave(w, slots, seen);
        if ended {
          return;
        }
      }
    }
  }
}
