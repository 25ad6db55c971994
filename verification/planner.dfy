/** The semantic half of planning: each proposed run is kept or dropped with a reason, and the kept
    ones are truncated to the batch cap. */
module Planner {
  import opened Common

  /** A proposed run. `inputsValid` is the instrument's own verdict on the inputs. */
  datatype Proposal = Proposal(instrument: string, claim: Option<nat>, relation: Option<string>, inputsValid: bool)

  datatype DropReason = UnknownInstrument | UnknownClaim | RelationWithoutClaim | InvalidRelation | InvalidInputs | OverCap

  datatype Dropped = Dropped(index: nat, run: Proposal, reason: DropReason)

  datatype PlanResult = PlanResult(runnable: seq<Proposal>, dropped: seq<Dropped>, tokens: nat, proposedCount: nat)

  /** What the planner validates against: the registered instruments and the claims it was offered. */
  datatype Context = Context(instruments: set<string>, openClaims: set<nat>)

  const RELATION_KINDS := {"support", "weaken", "context"}

  function Complaint(ctx: Context, p: Proposal): Option<DropReason> {
    if p.instrument !in ctx.instruments then Some(UnknownInstrument)
    else if p.claim.Some? && p.claim.value !in ctx.openClaims then Some(UnknownClaim)
    else if p.relation.Some? && p.claim.None? then Some(RelationWithoutClaim)
    else if p.relation.Some? && p.relation.value !in RELATION_KINDS then Some(InvalidRelation)
    else if !p.inputsValid then Some(InvalidInputs)
    else None
  }

  function Valid(ctx: Context, proposals: seq<Proposal>): seq<Proposal> {
    if proposals == [] then []
    else
      var last := proposals[|proposals| - 1];
      if Complaint(ctx, last).None? then Valid(ctx, proposals[..|proposals| - 1]) + [last]
      else Valid(ctx, proposals[..|proposals| - 1])
  }

  function Invalid(ctx: Context, proposals: seq<Proposal>): seq<Dropped> {
    if proposals == [] then []
    else
      var n := |proposals| - 1;
      if Complaint(ctx, proposals[n]).Some?
      then Invalid(ctx, proposals[..n]) + [Dropped(n, proposals[n], Complaint(ctx, proposals[n]).value)]
      else Invalid(ctx, proposals[..n])
  }

  /** The valid runs beyond the cap, numbered from the cap on. */
  function Overflow(valid: seq<Proposal>, cap: nat): seq<Dropped> {
    if |valid| <= cap then [] else Overflow(valid[..|valid| - 1], cap) + [Dropped(|valid| - 1, valid[|valid| - 1], OverCap)]
  }

  function PlanOf(ctx: Context, proposals: seq<Proposal>, cap: nat, tokens: nat): PlanResult {
    var valid := Valid(ctx, proposals);
    PlanResult(valid[..Min(cap, |valid|)], Invalid(ctx, proposals) + Overflow(valid, cap), tokens, |proposals|)
  }

  method Plan(ctx: Context, proposals: seq<Proposal>, maxRuns: nat, tokens: nat) returns (r: PlanResult)
    ensures r == PlanOf(ctx, proposals, maxRuns, tokens)
    ensures Conserves(r, maxRuns)
  {
    var runnable: seq<Proposal> := [];
    var dropped: seq<Dropped> := [];
    for i := 0 to |proposals|
      invariant runnable == Valid(ctx, proposals[..i])
      invariant dropped == Invalid(ctx, proposals[..i])
    {
      assert proposals[..i + 1][..i] == proposals[..i];
      var complaint := Complaint(ctx, proposals[i]);
      if complaint.Some? {
        dropped := dropped + [Dropped(i, proposals[i], complaint.value)];
      } else {
        runnable := runnable + [proposals[i]];
      }
    }
    assert proposals[..|proposals|] == proposals;
    var invalid := dropped;
    if |runnable| > maxRuns {
      for i := maxRuns to |runnable|
        invariant dropped == invalid + Overflow(runnable[..i], maxRuns)
      {
        assert runnable[..i + 1][..i] == runnable[..i];
        dropped := dropped + [Dropped(i, runnable[i], OverCap)];
      }
      assert runnable[..|runnable|] == runnable;
      runnable := runnable[..maxRuns];
    } else {
      assert dropped + Overflow(runnable, maxRuns) == dropped;
    }
    PlanConserves(ctx, proposals, maxRuns, tokens);
    return PlanResult(runnable, dropped, tokens, |proposals|);
  }

  // ----- no proposal is lost -----

  /** Every proposal is runnable or dropped, and the runnable ones fit the cap. */
  predicate Conserves(r: PlanResult, cap: nat) {
    |r.runnable| <= cap && r.proposedCount == |r.runnable| + |r.dropped|
  }

  function RunsOf(dropped: seq<Dropped>): seq<Proposal> {
    if dropped == [] then [] else RunsOf(dropped[..|dropped| - 1]) + [dropped[|dropped| - 1].run]
  }

  lemma {:induction false} RunsOfConcat(a: seq<Dropped>, b: seq<Dropped>)
    ensures RunsOf(a + b) == RunsOf(a) + RunsOf(b)
  {
    if b == [] {
      assert a + b == a;
    } else {
      RunsOfConcat(a, b[..|b| - 1]);
      assert (a + b)[..|a + b| - 1] == a + b[..|b| - 1];
    }
  }

  lemma RunsOfAppend(dropped: seq<Dropped>, d: Dropped)
    ensures RunsOf(dropped + [d]) == RunsOf(dropped) + [d.run]
  {
    assert (dropped + [d])[..|dropped|] == dropped;
  }

  lemma {:induction false} ValidOrInvalid(ctx: Context, proposals: seq<Proposal>)
    ensures multiset(Valid(ctx, proposals)) + multiset(RunsOf(Invalid(ctx, proposals))) == multiset(proposals)
    ensures |Valid(ctx, proposals)| + |Invalid(ctx, proposals)| == |proposals|
  {
    if proposals != [] {
      var n := |proposals| - 1;
      var p := proposals[n];
      ValidOrInvalid(ctx, proposals[..n]);
      assert proposals == proposals[..n] + [p];
      if Complaint(ctx, p).Some? {
        RunsOfAppend(Invalid(ctx, proposals[..n]), Dropped(n, p, Complaint(ctx, p).value));
      }
    }
  }

  lemma {:induction false} OverflowIsTail(valid: seq<Proposal>, cap: nat)
    ensures RunsOf(Overflow(valid, cap)) == valid[Min(cap, |valid|)..]
    ensures |Overflow(valid, cap)| == |valid| - Min(cap, |valid|)
  {
    if |valid| > cap {
      OverflowIsTail(valid[..|valid| - 1], cap);
      assert valid == valid[..|valid| - 1] + [valid[|valid| - 1]];
      RunsOfAppend(Overflow(valid[..|valid| - 1], cap), Dropped(|valid| - 1, valid[|valid| - 1], OverCap));
    }
  }

  /** The runnable and dropped runs of a plan are, together, exactly the proposals, none twice. */
  lemma PlanConserves(ctx: Context, proposals: seq<Proposal>, cap: nat, tokens: nat)
    ensures var r := PlanOf(ctx, proposals, cap, tokens);
            && Conserves(r, cap)
            && multiset(r.runnable) + multiset(RunsOf(r.dropped)) == multiset(proposals)
            && forall p :: p in r.runnable ==> Complaint(ctx, p).None?
  {
    var valid, invalid := Valid(ctx, proposals), Invalid(ctx, proposals);
    var k := Min(cap, |valid|);
    ValidOrInvalid(ctx, proposals);
    OverflowIsTail(valid, cap);
    RunsOfConcat(invalid, Overflow(valid, cap));
    SplitMultiset(valid, k, RunsOf(invalid));
    forall p | p in valid[..k] ensures Complaint(ctx, p).None? {
      ValidIsValid(ctx, proposals, p);
    }
  }

  lemma SplitMultiset(valid: seq<Proposal>, k: nat, invalid: seq<Proposal>)
    requires k <= |valid|
    ensures multiset(valid[..k]) + multiset(invalid + valid[k..]) == multiset(valid) + multiset(invalid)
  {
    assert valid == valid[..k] + valid[k..];
  }

  lemma {:induction false} ValidIsValid(ctx: Context, proposals: seq<Proposal>, p: Proposal)
    requires p in Valid(ctx, proposals)
    ensures Complaint(ctx, p).None?
  {
    var n := |proposals| - 1;
    if p in Valid(ctx, proposals[..n]) {
      ValidIsValid(ctx, proposals[..n], p);
    }
  }
}
