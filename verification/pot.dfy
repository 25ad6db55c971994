/** The project pot: settled funding, an append-only debit ledger, and holds on running passes.

    `available = funded - spent - reserved`, in 10^-6 USD. */
module Pot {
  import opened Common
  import Pricing

  datatype FundingStatus = Settled | Pending

  datatype Allocation = Allocation(amount: nat, status: FundingStatus)

  /** `run` is absent on a harness turn's debit. */
  datatype Debit = Debit(run: Option<nat>, amount: nat)

  /** A pass's trace row: its hold on the pot, if any. */
  datatype AgentRun = AgentRun(reserved: Option<nat>)

  /** Agent runs are named by their position in `runs`. */
  datatype State = State(allocations: seq<Allocation>, debits: seq<Debit>, runs: seq<AgentRun>)

  datatype Usage = Usage(tokens: int, prompt: Option<int>, completion: Option<int>, quote: Pricing.Quote)

  // ----- the three sums -----

  function Funded(allocations: seq<Allocation>): nat {
    if allocations == [] then 0
    else
      var last := allocations[|allocations| - 1];
      Funded(allocations[..|allocations| - 1]) + if last.status.Settled? then last.amount else 0
  }

  function Spent(debits: seq<Debit>): nat {
    if debits == [] then 0 else Spent(debits[..|debits| - 1]) + debits[|debits| - 1].amount
  }

  function HoldOf(run: AgentRun): nat {
    if run.reserved.Some? then run.reserved.value else 0
  }

  function Reserved(runs: seq<AgentRun>): nat {
    if runs == [] then 0 else Reserved(runs[..|runs| - 1]) + HoldOf(runs[|runs| - 1])
  }

  function Available(s: State): int {
    Funded(s.allocations) - Spent(s.debits) - Reserved(s.runs)
  }

  lemma FundedAppend(allocations: seq<Allocation>, a: Allocation)
    ensures Funded(allocations + [a]) == Funded(allocations) + if a.status.Settled? then a.amount else 0
  {
    assert (allocations + [a])[..|allocations|] == allocations;
  }

  lemma SpentAppend(debits: seq<Debit>, d: Debit)
    ensures Spent(debits + [d]) == Spent(debits) + d.amount
  {
    assert (debits + [d])[..|debits|] == debits;
  }

  lemma ReservedAppend(runs: seq<AgentRun>, r: AgentRun)
    ensures Reserved(runs + [r]) == Reserved(runs) + HoldOf(r)
  {
    assert (runs + [r])[..|runs|] == runs;
  }

  /** Rewriting one run moves the reserved sum by exactly the change of its hold. */
  lemma {:induction false} ReservedUpdate(runs: seq<AgentRun>, i: nat, r: AgentRun)
    requires i < |runs|
    ensures Reserved(runs[i := r]) == Reserved(runs) - HoldOf(runs[i]) + HoldOf(r)
  {
    var n := |runs| - 1;
    if i < n {
      ReservedUpdate(runs[..n], i, r);
      assert runs[i := r][..n] == runs[..n][i := r];
    } else {
      assert runs[i := r][..n] == runs[..n];
    }
  }

  // ----- reservation and debit -----

  /** The safety-cap cost of a pass at this rate, clamped to what is available. */
  function PassReserveAmount(available: int, rate: int, maxTokens: nat): nat {
    if available <= 0 then 0
    else
      var envelope := Pricing.TokensToCost(maxTokens, rate);
      if envelope <= 0 then available else Min(envelope, available)
  }

  /** A hold already taken is kept; otherwise a slice of a positive remainder is. */
  function Reserve(s: State, run: nat, rate: int, maxTokens: nat): State
    requires run < |s.runs|
  {
    if HoldOf(s.runs[run]) > 0 || Available(s) <= 0 then s
    else s.(runs := s.runs[run := AgentRun(Some(PassReserveAmount(Available(s), rate, maxTokens)))])
  }

  function Release(s: State, run: nat): State
    requires run < |s.runs|
  {
    s.(runs := s.runs[run := AgentRun(None)])
  }

  predicate Debited(debits: seq<Debit>, run: nat) {
    exists d :: d in debits && d.run == Some(run)
  }

  /** At most one debit per run; a harness turn always appends; nothing for no tokens. */
  function RecordDebit(s: State, run: Option<nat>, u: Usage): State {
    if u.tokens <= 0 || (run.Some? && Debited(s.debits, run.value)) then s
    else s.(debits := s.debits + [Debit(run, Cost(u))])
  }

  function Cost(u: Usage): nat {
    Pricing.UsageToCost(u.tokens, u.prompt, u.completion, u.quote)
  }

  lemma RecordMoves(s: State, run: Option<nat>, u: Usage)
    ensures var t := RecordDebit(s, run, u);
            t == s || (u.tokens > 0 && !(run.Some? && Debited(s.debits, run.value))
                       && t.allocations == s.allocations && t.runs == s.runs && Spent(t.debits) == Spent(s.debits) + Cost(u))
    ensures RecordDebit(s, run, u) == s <==> u.tokens <= 0 || (run.Some? && Debited(s.debits, run.value))
  {
    SpentAppend(s.debits, Debit(run, Cost(u)));
  }

  // ----- operations -----

  /** `Settle` converts a pass's hold into its debit in one transaction; `Drop` is a pass finished or
      swept without one. */
  datatype Op =
    | Fund(amount: nat, status: FundingStatus)
    | Start
    | ReservePass(run: nat, rate: int, maxTokens: nat)
    | Settle(run: nat, usage: Usage)
    | Drop(run: nat)
    | HarnessDebit(usage: Usage)

  predicate Possible(s: State, op: Op) {
    match op
    case ReservePass(run, _, _) => run < |s.runs|
    case Settle(run, _) => run < |s.runs|
    case Drop(run) => run < |s.runs|
    case _ => true
  }

  function Apply(s: State, op: Op): State
    requires Possible(s, op)
  {
    match op
    case Fund(amount, status) => s.(allocations := s.allocations + [Allocation(amount, status)])
    case Start => s.(runs := s.runs + [AgentRun(None)])
    case ReservePass(run, rate, maxTokens) => Reserve(s, run, rate, maxTokens)
    case Settle(run, usage) => Release(RecordDebit(s, Some(run), usage), run)
    case Drop(run) => Release(s, run)
    case HarnessDebit(usage) => RecordDebit(s, None, usage)
  }

  /** What a step debits beyond the hold it replaces. */
  function Excess(s: State, op: Op): nat
    requires Possible(s, op)
  {
    match op
    case Settle(run, u) =>
      if u.tokens <= 0 || Debited(s.debits, run) then 0
      else Max(0, Cost(u) - HoldOf(s.runs[run]))
    case HarnessDebit(u) => if u.tokens <= 0 then 0 else Cost(u)
    case _ => 0
  }

  const EMPTY := State([], [], [])

  predicate PossibleRun(ops: seq<Op>)
    decreases |ops|, 0
  {
    ops == [] || (PossibleRun(ops[..|ops| - 1]) && Possible(Run(ops[..|ops| - 1]), ops[|ops| - 1]))
  }

  function Run(ops: seq<Op>): State
    requires PossibleRun(ops)
    decreases |ops|, 1
  {
    if ops == [] then EMPTY else Apply(Run(ops[..|ops| - 1]), ops[|ops| - 1])
  }

  function TotalExcess(ops: seq<Op>): nat
    requires PossibleRun(ops)
    decreases |ops|, 1
  {
    if ops == [] then 0
    else TotalExcess(ops[..|ops| - 1]) + Excess(Run(ops[..|ops| - 1]), ops[|ops| - 1])
  }

  // ----- no oversell -----

  ghost predicate OneDebitPerRun(debits: seq<Debit>) {
    forall i, j :: 0 <= i < j < |debits| && debits[i].run.Some? ==> debits[i].run != debits[j].run
  }

  /** A step overdraws the pot by its excess at most. */
  lemma StepKeepsWithin(s: State, op: Op, slack: nat)
    requires Possible(s, op) && Available(s) + slack >= 0
    ensures Available(Apply(s, op)) + slack + Excess(s, op) >= 0
  {
    match op
    case Fund(amount, status) => FundedAppend(s.allocations, Allocation(amount, status));
    case Start => ReservedAppend(s.runs, AgentRun(None));
    case ReservePass(run, rate, maxTokens) =>
      ReservedUpdate(s.runs, run, AgentRun(Some(PassReserveAmount(Available(s), rate, maxTokens))));
    case Settle(run, u) =>
      ReservedUpdate(s.runs, run, AgentRun(None));
      RecordMoves(s, Some(run), u);
    case Drop(run) => ReservedUpdate(s.runs, run, AgentRun(None));
    case HarnessDebit(u) =>
      RecordMoves(s, None, u);
  }

  lemma StepKeepsOneDebit(s: State, op: Op)
    requires Possible(s, op) && OneDebitPerRun(s.debits)
    ensures OneDebitPerRun(Apply(s, op).debits)
    ensures s.debits <= Apply(s, op).debits
  {
    if op.Settle? && op.usage.tokens > 0 && !Debited(s.debits, op.run) {
      assert forall i :: 0 <= i < |s.debits| ==> s.debits[i] in s.debits;
    }
  }

  /** No oversell. After any interleaving, spend and holds together exceed the funding by at most what
      debits took beyond the holds they replaced - so a pot whose debits fit their holds is never
      overdrawn - and no run was debited twice. */
  lemma {:induction false} NoOversell(ops: seq<Op>)
    requires PossibleRun(ops)
    ensures var s := Run(ops);
            && Spent(s.debits) + Reserved(s.runs) <= Funded(s.allocations) + TotalExcess(ops)
            && (TotalExcess(ops) == 0 ==> Available(s) >= 0)
            && OneDebitPerRun(s.debits)
  {
    if ops != [] {
      var init, op := ops[..|ops| - 1], ops[|ops| - 1];
      NoOversell(init);
      StepKeepsWithin(Run(init), op, TotalExcess(init));
      StepKeepsOneDebit(Run(init), op);
    }
  }

  /** A reservation is positive, fits the remainder, and only leaves room for another pass when its
      whole safety envelope fitted. */
  lemma ReserveEnvelope(s: State, run: nat, rate: int, maxTokens: nat)
    requires run < |s.runs| && HoldOf(s.runs[run]) == 0 && Available(s) > 0
    ensures var t := Reserve(s, run, rate, maxTokens);
            && 0 < HoldOf(t.runs[run]) <= Available(s)
            && Available(t) == Available(s) - HoldOf(t.runs[run]) >= 0
            && (Available(t) > 0 ==> HoldOf(t.runs[run]) == Pricing.TokensToCost(maxTokens, rate))
  {
    ReservedUpdate(s.runs, run, AgentRun(Some(PassReserveAmount(Available(s), rate, maxTokens))));
  }

  // ----- the mid-pass policy -----

  /** Keep going while the recorded tokens cost less than this pass's remainder. */
  predicate PolicyAllows(available: int, rate: int, tokens: int) {
    available > 0 && Pricing.TokensToCost(tokens, rate) < available
  }

  /** Recorded tokens only grow, and so does their cost: once the policy stops a pass it stays stopped. */
  lemma StopIsFinal(available: int, rate: int, tokens: int, more: int)
    requires tokens <= more && !PolicyAllows(available, rate, tokens)
    ensures !PolicyAllows(available, rate, more)
  {
    Pricing.CostMonotone(tokens, more, rate);
  }

  // ----- in place -----

  datatype Budget = Budget(funded: nat, spent: nat, reserved: nat, available: int)

  datatype FundingError = NotNative | NotInternal

  class ProjectPot {
    var allocations: seq<Allocation>
    var debits: seq<Debit>
    var runs: seq<AgentRun>

    constructor ()
      ensures Contents() == EMPTY
    {
      allocations, debits, runs := [], [], [];
    }

    function Contents(): State
      reads this
    {
      State(allocations, debits, runs)
    }

    /** Aggregate the three ledgers. */
    method ProjectBudget() returns (b: Budget)
      ensures b == Budget(Funded(allocations), Spent(debits), Reserved(runs), Available(Contents()))
    {
      var funded, spent, reserved := 0, 0, 0;
      for i := 0 to |allocations|
        invariant funded == Funded(allocations[..i])
      {
        assert allocations[..i + 1][..i] == allocations[..i];
        if allocations[i].status.Settled? {
          funded := funded + allocations[i].amount;
        }
      }
      assert allocations[..|allocations|] == allocations;
      for i := 0 to |debits|
        invariant spent == Spent(debits[..i])
      {
        assert debits[..i + 1][..i] == debits[..i];
        spent := spent + debits[i].amount;
      }
      assert debits[..|debits|] == debits;
      for i := 0 to |runs|
        invariant reserved == Reserved(runs[..i])
      {
        assert runs[..i + 1][..i] == runs[..i];
        if runs[i].reserved.Some? {
          reserved := reserved + runs[i].reserved.value;
        }
      }
      assert runs[..|runs|] == runs;
      return Budget(funded, spent, reserved, funded - spent - reserved);
    }

    /** Only internal actors fund, only natively, and what they fund is settled at birth. */
    method CreateFunding(amount: nat, native: bool, internal: bool) returns (r: Result<(), FundingError>)
      requires amount > 0
      modifies this`allocations
      ensures r == if !native then Err(NotNative) else if !internal then Err(NotInternal) else Ok(())
      ensures Contents() == if r.Ok? then Apply(old(Contents()), Fund(amount, Settled)) else old(Contents())
    {
      if !native {
        return Err(NotNative);
      }
      if !internal {
        return Err(NotInternal);
      }
      allocations := allocations + [Allocation(amount, Settled)];
      return Ok(());
    }

    /** The held amount, or nothing when the pot is exhausted. */
    method ReserveComputeForPass(run: nat, rate: int, maxTokens: nat) returns (held: Option<nat>)
      requires run < |runs|
      modifies this`runs
      ensures Contents() == Reserve(old(Contents()), run, rate, maxTokens)
      ensures held.Some? <==> HoldOf(runs[run]) > 0
      ensures held.Some? ==> held.value == HoldOf(runs[run])
    {
      if runs[run].reserved.Some? && runs[run].reserved.value > 0 {
        return runs[run].reserved;
      }
      var budget := ProjectBudget();
      if budget.available <= 0 {
        return None;
      }
      var amount := PassReserveAmount(budget.available, rate, maxTokens);
      runs := runs[run := AgentRun(Some(amount))];
      return Some(amount);
    }

    method ReleaseComputeReservation(run: nat)
      requires run < |runs|
      modifies this`runs
      ensures Contents() == Release(old(Contents()), run)
    {
      if runs[run].reserved.None? {
        assert runs[run := AgentRun(None)] == runs;
        return;
      }
      runs := runs[run := AgentRun(None)];
    }

    /** Record a usage once per run; the debit on record is returned. */
    method RecordComputeDebit(run: Option<nat>, u: Usage) returns (debit: Option<Debit>)
      modifies this`debits
      ensures Contents() == RecordDebit(old(Contents()), run, u)
      ensures debit.Some? <==> u.tokens > 0
      ensures debit.Some? ==> debit.value in debits && debit.value.run == run
    {
      if u.tokens <= 0 {
        return None;
      }
      if run.Some? {
        for i := 0 to |debits|
          invariant forall j :: 0 <= j < i ==> debits[j].run != run
        {
          if debits[i].run == run {
            return Some(debits[i]);
          }
        }
      }
      var d := Debit(run, Pricing.UsageToCost(u.tokens, u.prompt, u.completion, u.quote));
      debits := debits + [d];
      return Some(d);
    }

    /** The planning call's debit replaces the pass's hold, in one transaction. */
    method SettlePass(run: nat, u: Usage)
      requires run < |runs|
      modifies this`debits, this`runs
      ensures Contents() == Apply(old(Contents()), Settle(run, u))
    {
      var _ := RecordComputeDebit(Some(run), u);
      ReleaseComputeReservation(run);
    }
  }
}
