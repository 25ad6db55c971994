/** One bounded agent pass: plan, run a batch, observe, replan, within several budgets, leaving a
    trace row for every proposed run.

    The planner, the budget policy and the instruments are arbitrary: the n-th planning call, the n-th
    budget check and the n-th attempt answer as the given functions say. */
module AgentPass {
  import opened Common
  import opened Planner

  datatype Settings = Settings(maxRuns: nat, maxReplans: nat, maxBatchRuns: nat)

  /** An unusable reply still cost tokens; `PlannerCrash` is any other exception. */
  datatype PlanReply = Planned(result: PlanResult) | Unusable(spent: nat) | PlannerCrash

  datatype Attempt = Lands | Refused | InstrumentCrash

  datatype StopReason = BudgetExhausted | AgentCapExhausted

  datatype TraceStep =
    | PlanRow(version: nat)
    | PlannerFailedRow(version: nat)
    | MaxReplansRow(version: nat)
    | DroppedRow(version: nat, dropped: Dropped)
    | LandedRow(version: nat, index: nat, run: Proposal)
    | FailedRow(version: nat, index: nat, run: Proposal)
    | SkippedRow(version: nat, index: nat, run: Proposal, reason: StopReason)

  datatype Status = Running | Completed | Failed

  // ----- reading the trace -----

  /** What a trace says: which runs were executed (landed, failed or skipped) and which were dropped,
      in order, how many of each, and whether the executed rows are numbered 0, 1, 2, ... */
  datatype Tally = Tally(executed: seq<Proposal>, droppedRuns: seq<Proposal>,
                         landed: nat, failed: nat, skipped: nat, dropped: nat, numbered: bool)

  function Bump(t: Tally, s: TraceStep): Tally {
    match s
    case PlanRow(_) => t
    case PlannerFailedRow(_) => t
    case MaxReplansRow(_) => t
    case DroppedRow(_, d) => t.(droppedRuns := t.droppedRuns + [d.run], dropped := t.dropped + 1)
    case LandedRow(_, i, run) => Execute(t, i, run).(landed := t.landed + 1)
    case FailedRow(_, i, run) => Execute(t, i, run).(failed := t.failed + 1)
    case SkippedRow(_, i, run, _) => Execute(t, i, run).(skipped := t.skipped + 1)
  }

  function Execute(t: Tally, index: nat, run: Proposal): Tally {
    t.(executed := t.executed + [run], numbered := t.numbered && index == |t.executed|)
  }

  function TallyOf(steps: seq<TraceStep>): Tally {
    if steps == [] then Tally([], [], 0, 0, 0, 0, true)
    else Bump(TallyOf(steps[..|steps| - 1]), steps[|steps| - 1])
  }

  lemma TallyAppend(steps: seq<TraceStep>, s: TraceStep)
    ensures TallyOf(steps + [s]) == Bump(TallyOf(steps), s)
  {
    assert (steps + [s])[..|steps|] == steps;
  }

  lemma {:induction false} TallyAddsUp(steps: seq<TraceStep>)
    ensures var t := TallyOf(steps);
            |t.executed| == t.landed + t.failed + t.skipped && |t.droppedRuns| == t.dropped
  {
    if steps != [] {
      TallyAddsUp(steps[..|steps| - 1]);
    }
  }

  function DroppedRows(version: nat, dropped: seq<Dropped>): seq<TraceStep> {
    if dropped == [] then []
    else DroppedRows(version, dropped[..|dropped| - 1]) + [DroppedRow(version, dropped[|dropped| - 1])]
  }

  function DropAll(t: Tally, dropped: seq<Dropped>): Tally {
    t.(droppedRuns := t.droppedRuns + RunsOf(dropped), dropped := t.dropped + |dropped|)
  }

  lemma {:induction false} AppendDropped(steps: seq<TraceStep>, version: nat, dropped: seq<Dropped>)
    ensures TallyOf(steps + DroppedRows(version, dropped)) == DropAll(TallyOf(steps), dropped)
  {
    if dropped == [] {
      assert steps + DroppedRows(version, dropped) == steps;
      assert TallyOf(steps).droppedRuns + RunsOf(dropped) == TallyOf(steps).droppedRuns;
    } else {
      var init, last := dropped[..|dropped| - 1], dropped[|dropped| - 1];
      AppendDropped(steps, version, init);
      var before := steps + DroppedRows(version, init);
      TallyAppend(before, DroppedRow(version, last));
      assert steps + DroppedRows(version, dropped) == before + [DroppedRow(version, last)];
      Assoc(TallyOf(steps).droppedRuns, RunsOf(init), last.run);
    }
  }

  lemma Assoc<T>(a: seq<T>, b: seq<T>, x: T)
    ensures (a + b) + [x] == a + (b + [x])
  {
  }

  // ----- what the plan versions proposed -----

  /** The runnable runs, the dropped runs, the number of proposals and the tokens over all plan versions. */
  datatype Proposed = Proposed(runnable: seq<Proposal>, dropped: seq<Proposal>, count: nat, tokens: nat)

  function ProposedBy(versions: seq<PlanResult>): Proposed {
    if versions == [] then Proposed([], [], 0, 0)
    else Propose(ProposedBy(versions[..|versions| - 1]), versions[|versions| - 1])
  }

  function Propose(p: Proposed, r: PlanResult): Proposed {
    Proposed(p.runnable + r.runnable, p.dropped + RunsOf(r.dropped), p.count + r.proposedCount, p.tokens + r.tokens)
  }

  lemma ProposedAppend(versions: seq<PlanResult>, r: PlanResult)
    ensures ProposedBy(versions + [r]) == Propose(ProposedBy(versions), r)
  {
    assert (versions + [r])[..|versions|] == versions;
  }

  lemma {:induction false} RunsLength(dropped: seq<Dropped>)
    ensures |RunsOf(dropped)| == |dropped|
  {
    if dropped != [] {
      RunsLength(dropped[..|dropped| - 1]);
    }
  }

  // ----- the trace against the plan versions -----

  /** Trace and versions agree, up to the runs of the batch still to be executed. */
  predicate AgreeUpTo(t: Tally, p: Proposed, plannedCount: nat, pending: seq<Proposal>) {
    && t.executed + pending == p.runnable
    && t.droppedRuns == p.dropped
    && plannedCount == p.count == |p.runnable| + |p.dropped|
  }

  lemma NewVersion(t: Tally, p: Proposed, plannedCount: nat, r: PlanResult, cap: nat)
    requires AgreeUpTo(t, p, plannedCount, []) && Conserves(r, cap)
    ensures AgreeUpTo(DropAll(t, r.dropped), Propose(p, r), plannedCount + r.proposedCount, r.runnable)
  {
    RunsLength(r.dropped);
    assert t.executed + [] == t.executed;
  }

  /** `after` is `before` with `runs` executed, `attempts` of them actually attempted. */
  predicate Executes(before: Tally, after: Tally, runs: seq<Proposal>, attempts: nat) {
    && after.executed == before.executed + runs
    && after.droppedRuns == before.droppedRuns && after.dropped == before.dropped
    && after.numbered == before.numbered
    && after.landed + after.failed == before.landed + before.failed + attempts
  }

  lemma ExecutesOne(before: Tally, t: Tally, runs: seq<Proposal>, attempts: nat, s: TraceStep)
    requires Executes(before, t, runs, attempts)
    requires (s.LandedRow? || s.FailedRow? || s.SkippedRow?) && s.index == |t.executed|
    ensures Executes(before, Bump(t, s), runs + [s.run], attempts + if s.SkippedRow? then 0 else 1)
  {
    Assoc(before.executed, runs, s.run);
  }

  // ----- the pass -----

  /** How many runnable steps this plan version may propose. */
  function BatchCap(cfg: Settings, remaining: nat): nat {
    if cfg.maxReplans <= 0 then remaining else Min(remaining, cfg.maxBatchRuns)
  }

  /** The default planner's contract: no proposal unaccounted for, runnable within the cap. */
  ghost predicate Contractual(planner: (nat, nat) -> PlanReply) {
    forall call, cap :: planner(call, cap).Planned? ==> Conserves(planner(call, cap).result, cap)
  }

  /** A planner that answers with the validated and truncated plan keeps that contract. */
  lemma ValidatingPlannerIsContractual(planner: (nat, nat) -> PlanReply)
    requires forall call, cap :: planner(call, cap).Planned? ==> IsValidated(planner(call, cap).result, cap)
    ensures Contractual(planner)
  {
    forall call, cap | planner(call, cap).Planned? ensures Conserves(planner(call, cap).result, cap) {
      var ctx, proposals, tokens :| planner(call, cap).result == PlanOf(ctx, proposals, cap, tokens);
      PlanConserves(ctx, proposals, cap, tokens);
    }
  }

  ghost predicate IsValidated(r: PlanResult, cap: nat) {
    exists ctx, proposals, tokens :: r == PlanOf(ctx, proposals, cap, tokens)
  }

  /** The trace row. Fields hold what has been committed. */
  class AgentRun {
    var status: Status
    var steps: seq<TraceStep>
    var versions: seq<PlanResult>
    var plannedCount: nat
    var ranCount: nat
    var tokensUsed: nat
    /** The tokens of this run's rows on the debit ledger. */
    var debits: seq<nat>

    constructor ()
      ensures IsNew()
    {
      status, steps, versions, plannedCount, ranCount, tokensUsed, debits := Running, [], [], 0, 0, 0, [];
    }

    predicate IsNew()
      reads this
    {
      status == Running && steps == [] && versions == [] && plannedCount == 0 && ranCount == 0 && tokensUsed == 0
      && debits == []
    }

    /** Debit the tokens recorded so far, once per run and never for nothing. */
    method RecordComputeDebit()
      modifies `debits
      ensures debits == if old(debits) == [] && tokensUsed > 0 then [tokensUsed] else old(debits)
    {
      if tokensUsed > 0 && debits == [] {
        debits := [tokensUsed];
      }
    }

    /** Every proposed run has exactly one row: landed, failed, skipped or dropped. */
    predicate Accounted()
      reads this
    {
      var t, p := TallyOf(steps), ProposedBy(versions);
      && t.executed == p.runnable && t.droppedRuns == p.dropped
      && plannedCount == p.count == t.landed + t.failed + t.skipped + t.dropped
    }

    /** Append one row and commit it with the counter it changes. */
    method Record(row: TraceStep)
      requires ranCount == TallyOf(steps).landed
      modifies `steps, `ranCount
      ensures steps == old(steps) + [row]
      ensures TallyOf(steps) == Bump(old(TallyOf(steps)), row)
      ensures ranCount == TallyOf(steps).landed
    {
      TallyAppend(steps, row);
      steps := steps + [row];
      if row.LandedRow? {
        ranCount := ranCount + 1;
      }
    }

    /** Record every remaining run of the batch as skipped. */
    method SkipRest(batch: seq<Proposal>, from: nat, version: nat, stepIndex: nat, reason: StopReason)
      requires ranCount == TallyOf(steps).landed && from <= |batch| && stepIndex == |TallyOf(steps).executed|
      modifies `steps, `ranCount
      ensures ranCount == TallyOf(steps).landed
      ensures Executes(old(TallyOf(steps)), TallyOf(steps), batch[from..], 0)
    {
      ghost var before := TallyOf(steps);
      assert Executes(before, before, batch[from..from], 0);
      for i := from to |batch|
        invariant ranCount == TallyOf(steps).landed
        invariant Executes(before, TallyOf(steps), batch[from..i], 0)
      {
        var row := SkippedRow(version, stepIndex + i - from, batch[i], reason);
        ExecutesOne(before, TallyOf(steps), batch[from..i], 0, row);
        assert batch[from..i + 1] == batch[from..i] + [batch[i]];
        Record(row);
      }
      assert batch[from..|batch|] == batch[from..];
    }

    /** Run a batch: check the budgets before each run; a stop records the whole rest as skipped; a
        refused run is recorded and the batch goes on. */
    method ExecuteBatch(batch: seq<Proposal>, version: nat, start: Progress,
                        stops: nat -> Option<StopReason>, attempts: nat -> Attempt)
      returns (end: BatchEnd, progress: Progress)
      requires ranCount == TallyOf(steps).landed && start.stepIndex == |TallyOf(steps).executed|
      modifies `steps, `ranCount
      ensures ranCount == TallyOf(steps).landed
      ensures end != Crashed ==> progress.stepIndex == |TallyOf(steps).executed|
      ensures start.attempts <= progress.attempts <= start.attempts + |batch|
      ensures end == Done ==> progress.attempts == start.attempts + |batch|
      ensures end != Crashed ==>
                Executes(old(TallyOf(steps)), TallyOf(steps), batch, progress.attempts - start.attempts)
      ensures end == Crashed ==>
                var used := progress.attempts - start.attempts;
                used > 0 && Executes(old(TallyOf(steps)), TallyOf(steps), batch[..used - 1], used - 1)
    {
      ghost var before := TallyOf(steps);
      progress := start;
      assert Executes(before, before, batch[..0], 0);
      for i := 0 to |batch|
        invariant ranCount == TallyOf(steps).landed
        invariant progress.attempts == start.attempts + i && progress.stepIndex == |TallyOf(steps).executed|
        invariant Executes(before, TallyOf(steps), batch[..i], i)
      {
        var stop := stops(progress.checks);
        progress := progress.(checks := progress.checks + 1);
        if stop.Some? {
          ghost var t := TallyOf(steps);
          SkipRest(batch, i, version, progress.stepIndex, stop.value);
          ExecutesBoth(before, t, TallyOf(steps), batch[..i], batch[i..], i);
          assert batch[..i] + batch[i..] == batch;
          progress := progress.(stepIndex := progress.stepIndex + |batch| - i);
          return BudgetStop, progress;
        }
        var attempt := attempts(progress.attempts);
        progress := progress.(attempts := progress.attempts + 1);
        if attempt == InstrumentCrash {
          return Crashed, progress;
        }
        var row := if attempt == Lands then LandedRow(version, progress.stepIndex, batch[i])
                   else FailedRow(version, progress.stepIndex, batch[i]);
        ExecutesOne(before, TallyOf(steps), batch[..i], i, row);
        assert batch[..i + 1] == batch[..i] + [batch[i]];
        Record(row);
        progress := progress.(stepIndex := progress.stepIndex + 1);
      }
      assert batch[..|batch|] == batch;
      end := Done;
    }

    /** Record a plan version: its own row, then a row per dropped run. */
    method AdoptPlan(r: PlanResult, version: nat)
      requires ranCount == TallyOf(steps).landed
      modifies `steps, `ranCount, `versions, `plannedCount, `tokensUsed
      ensures ranCount == TallyOf(steps).landed
      ensures versions == old(versions) + [r]
      ensures plannedCount == old(plannedCount) + r.proposedCount
      ensures tokensUsed == old(tokensUsed) + r.tokens
      ensures TallyOf(steps) == DropAll(old(TallyOf(steps)), r.dropped)
    {
      Record(PlanRow(version));
      AppendDropped(steps, version, r.dropped);
      steps := steps + DroppedRows(version, r.dropped);
      versions := versions + [r];
      plannedCount := plannedCount + r.proposedCount;
      tokensUsed := tokensUsed + r.tokens;
    }

    /** Trace and versions agree up to `pending`, whenever the planner keeps its contract. */
    ghost predicate UpTo(planner: (nat, nat) -> PlanReply, pending: seq<Proposal>)
      reads this
    {
      Contractual(planner) ==> AgreeUpTo(TallyOf(steps), ProposedBy(versions), plannedCount, pending)
    }

    /** The state between two steps of the loop: the counters and tokens agree with trace and versions, and
        `pending` is what the current version still has to run. */
    ghost predicate Looping(planner: (nat, nat) -> PlanReply, pending: seq<Proposal>, replans: nat, attempts: nat)
      reads this
    {
      && ranCount == TallyOf(steps).landed && TallyOf(steps).numbered && UpTo(planner, pending)
      && TallyOf(steps).landed + TallyOf(steps).failed == attempts
      && tokensUsed == ProposedBy(versions).tokens && |versions| == 1 + replans
    }

    /** How the loop can leave the row. */
    ghost predicate LoopEnded(planner: (nat, nat) -> PlanReply, crashed: bool, replans: nat, used: nat, unusable: Option<nat>)
      reads this
    {
      var recorded := TallyOf(steps).landed + TallyOf(steps).failed;
      && ranCount == TallyOf(steps).landed && TallyOf(steps).numbered
      && recorded <= used && (!crashed ==> recorded == used && UpTo(planner, []))
      && tokensUsed == ProposedBy(versions).tokens + Spent(unusable)
      && |versions| <= 1 + replans <= |versions| + 1 && (unusable.Some? ==> |versions| == replans && !crashed)
    }

    /** Execute the current plan version, observe, replan while budget remains. */
    method PlanObserveReplan(cfg: Settings, first: PlanResult, planner: (nat, nat) -> PlanReply,
                             stops: nat -> Option<StopReason>, attempts: nat -> Attempt)
      returns (crashed: bool, replans: nat, used: nat, unusable: Option<nat>)
      requires Looping(planner, first.runnable, 0, 0) && TallyOf(steps).executed == []
      requires Contractual(planner) ==> |first.runnable| <= BatchCap(cfg, cfg.maxRuns)
      modifies `steps, `ranCount, `versions, `plannedCount, `tokensUsed
      ensures LoopEnded(planner, crashed, replans, used, unusable)
      ensures replans <= cfg.maxReplans && used <= cfg.maxRuns
    {
      var plan := first;
      var remainingRuns: nat, remainingReplans: nat := cfg.maxRuns, cfg.maxReplans;
      var version: nat := 0;
      var progress := Progress(0, 0, 0);
      replans, unusable := 0, None;
      while true
        invariant Looping(planner, plan.runnable, replans, progress.attempts)
        invariant Contractual(planner) ==> |plan.runnable| <= BatchCap(cfg, remainingRuns)
        invariant progress.stepIndex == |TallyOf(steps).executed| && unusable == None
        invariant progress.attempts + remainingRuns == cfg.maxRuns
        invariant replans + remainingReplans == cfg.maxReplans
        decreases remainingReplans
      {
        var batch := plan.runnable[..Min(|plan.runnable|, BatchCap(cfg, remainingRuns))];
        if batch == [] {
          return false, replans, progress.attempts, unusable;
        }
        var end;
        end, progress := RunBatch(planner, plan, batch, version, replans, progress, stops, attempts);
        remainingRuns := cfg.maxRuns - progress.attempts;
        if end == Crashed {
          return true, replans, progress.attempts, unusable;
        }
        if end == BudgetStop || remainingRuns <= 0 || remainingReplans <= 0 {
          StopReplanning(planner, remainingRuns > 0 && remainingReplans <= 0 && end != BudgetStop, version, replans, progress.attempts);
          return false, replans, progress.attempts, unusable;
        }
        remainingReplans := remainingReplans - 1;
        replans := replans + 1;
        version := version + 1;
        var reply := planner(replans, BatchCap(cfg, remainingRuns));
        if reply == PlannerCrash {
          return true, replans, progress.attempts, unusable;
        }
        if reply.Unusable? {
          GiveUp(planner, reply.spent, version, replans, progress.attempts);
          return false, replans, progress.attempts, Some(reply.spent);
        }
        NextVersion(planner, reply.result, version, BatchCap(cfg, remainingRuns), replans, progress.attempts);
        plan := reply.result;
      }
    }

    /** Leave the loop after a batch, noting when only the replan budget stopped it. */
    method StopReplanning(planner: (nat, nat) -> PlanReply, note: bool, version: nat, ghost replans: nat, ghost attempts: nat)
      requires Looping(planner, [], replans, attempts)
      modifies `steps, `ranCount
      ensures LoopEnded(planner, false, replans, attempts, None)
    {
      if note {
        Record(MaxReplansRow(version));
      }
    }

    /** Leave the loop on an unusable reply: its tokens count, the landed work stands. */
    method GiveUp(planner: (nat, nat) -> PlanReply, spent: nat, version: nat, ghost replans: nat, ghost attempts: nat)
      requires replans > 0 && Looping(planner, [], replans - 1, attempts)
      modifies `steps, `ranCount, `tokensUsed
      ensures LoopEnded(planner, false, replans, attempts, Some(spent))
    {
      tokensUsed := tokensUsed + spent;
      Record(PlannerFailedRow(version));
    }

    /** Adopt the next plan version inside the loop. */
    method NextVersion(planner: (nat, nat) -> PlanReply, r: PlanResult, version: nat, cap: nat,
                       ghost replans: nat, ghost attempts: nat)
      requires replans > 0 && Looping(planner, [], replans - 1, attempts)
      requires Contractual(planner) ==> Conserves(r, cap)
      modifies `steps, `ranCount, `versions, `plannedCount, `tokensUsed
      ensures Looping(planner, r.runnable, replans, attempts)
      ensures TallyOf(steps).executed == old(TallyOf(steps).executed)
    {
      Replan(planner, r, version, cap);
    }

    /** One batch of the loop, keeping trace and versions in agreement. */
    method RunBatch(planner: (nat, nat) -> PlanReply, plan: PlanResult, batch: seq<Proposal>, version: nat,
                    ghost replans: nat, start: Progress, stops: nat -> Option<StopReason>, attempts: nat -> Attempt)
      returns (end: BatchEnd, progress: Progress)
      requires Looping(planner, plan.runnable, replans, start.attempts)
      requires Contractual(planner) ==> batch == plan.runnable
      requires start.stepIndex == |TallyOf(steps).executed|
      modifies `steps, `ranCount
      ensures start.attempts <= progress.attempts <= start.attempts + |batch|
      ensures end != Crashed ==>
                Looping(planner, [], replans, progress.attempts) && progress.stepIndex == |TallyOf(steps).executed|
      ensures end == Crashed ==> LoopEnded(planner, true, replans, progress.attempts, None)
    {
      end, progress := ExecuteBatch(batch, version, start, stops, attempts);
      assert TallyOf(steps).executed + [] == TallyOf(steps).executed;
    }

    /** Adopt a new plan version, its runnable runs now pending. */
    method Replan(planner: (nat, nat) -> PlanReply, r: PlanResult, version: nat, cap: nat)
      requires ranCount == TallyOf(steps).landed && UpTo(planner, [])
      requires Contractual(planner) ==> Conserves(r, cap)
      modifies `steps, `ranCount, `versions, `plannedCount, `tokensUsed
      ensures ranCount == TallyOf(steps).landed && UpTo(planner, r.runnable)
      ensures TallyOf(steps) == DropAll(old(TallyOf(steps)), r.dropped)
      ensures ProposedBy(versions) == Propose(old(ProposedBy(versions)), r)
      ensures tokensUsed == old(tokensUsed) + r.tokens && |versions| == old(|versions|) + 1
    {
      ProposedAppend(versions, r);
      if Contractual(planner) {
        NewVersion(TallyOf(steps), ProposedBy(versions), plannedCount, r, cap);
      }
      AdoptPlan(r, version);
    }

    /** Adopt the initial plan and debit its tokens. */
    method AdoptFirst(planner: (nat, nat) -> PlanReply, r: PlanResult, cap: nat)
      requires IsNew() && (Contractual(planner) ==> Conserves(r, cap))
      modifies `steps, `ranCount, `versions, `plannedCount, `tokensUsed, `debits
      ensures Looping(planner, r.runnable, 0, 0) && TallyOf(steps).executed == []
      ensures debits == DebitFor(Planned(r))
    {
      Replan(planner, r, 0, cap);
      RecordComputeDebit();
    }

    /** Give the row its terminal status. */
    method Conclude(planner: (nat, nat) -> PlanReply, crashed: bool, ghost replans: nat, ghost used: nat, ghost unusable: Option<nat>)
      requires LoopEnded(planner, crashed, replans, used, unusable)
      modifies `status
      ensures status == if crashed then Failed else Completed
      ensures Contractual(planner) && status == Completed ==> Accounted()
    {
      status := if crashed then Failed else Completed;
      TallyAddsUp(steps);
      assert TallyOf(steps).executed + [] == TallyOf(steps).executed;
    }

    /** The whole pass. It always ends, in a terminal status, within its call and attempt budgets; the
        committed counter equals the landed rows even after a crash; the tokens used are those of every
        plan version and of an unusable reply; the only debit is the first planning call's; and, with a
        contractual planner, a completed pass accounts for every proposed run. */
    method RunPass(cfg: Settings, admitted: bool, planner: (nat, nat) -> PlanReply,
                   stops: nat -> Option<StopReason>, attempts: nat -> Attempt) returns (report: Report)
      requires IsNew()
      modifies this
      ensures status != Running && ranCount == TallyOf(steps).landed && TallyOf(steps).numbered
      ensures report.calls <= 1 + cfg.maxReplans && report.attempts <= cfg.maxRuns
      ensures var recorded := TallyOf(steps).landed + TallyOf(steps).failed;
              recorded <= report.attempts && (status == Completed ==> recorded == report.attempts)
      ensures tokensUsed == ProposedBy(versions).tokens + Spent(report.unusable)
      ensures |versions| <= report.calls <= |versions| + 1 && (report.unusable.Some? ==> report.calls == |versions| + 1)
      ensures Contractual(planner) && status == Completed ==> Accounted()
      ensures debits == if admitted then DebitFor(planner(0, BatchCap(cfg, cfg.maxRuns))) else []
      ensures !admitted || !planner(0, BatchCap(cfg, cfg.maxRuns)).Planned? ==> status == Failed && steps == []
    {
      if !admitted {
        status := Failed;
        return Report(0, 0, None);
      }
      var reply := planner(0, BatchCap(cfg, cfg.maxRuns));
      if reply == PlannerCrash {
        status := Failed;
        return Report(1, 0, None);
      }
      if reply.Unusable? {
        tokensUsed := reply.spent;
        RecordComputeDebit();
        status := Failed;
        return Report(1, 0, Some(reply.spent));
      }
      AdoptFirst(planner, reply.result, BatchCap(cfg, cfg.maxRuns));
      var crashed, replans, used, unusable := PlanObserveReplan(cfg, reply.result, planner, stops, attempts);
      Conclude(planner, crashed, replans, used, unusable);
      return Report(1 + replans, used, unusable);
    }
  }

  /** Attempts made, budget checks made, and the next step index. */
  datatype Progress = Progress(attempts: nat, checks: nat, stepIndex: nat)

  datatype BatchEnd = Done | BudgetStop | Crashed

  /** What a pass used: planning calls, attempts, and the tokens of the reply that was unusable, if one was. */
  datatype Report = Report(calls: nat, attempts: nat, unusable: Option<nat>)

  function Spent(unusable: Option<nat>): nat {
    if unusable.Some? then unusable.value else 0
  }

  /** The ledger row of the first planning call; a zero-token reply writes none. */
  function DebitFor(reply: PlanReply): seq<nat> {
    var tokens := match reply
      case Planned(r) => r.tokens
      case Unusable(spent) => spent
      case PlannerCrash => 0;
    if tokens > 0 then [tokens] else []
  }

  lemma ExecutesBoth(before: Tally, t: Tally, after: Tally, a: seq<Proposal>, b: seq<Proposal>, attempts: nat)
    requires Executes(before, t, a, attempts) && Executes(t, after, b, 0)
    ensures Executes(before, after, a + b, attempts)
  {
    assert (before.executed + a) + b == before.executed + (a + b);
  }
}
