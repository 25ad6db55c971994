/** The turn budget of one session: what the turn counter is for.

    A session tries turns one after another on a ledger that other sessions write in between, and counts a
    turn once its completion was started. */
module HarnessTurns {
  import opened Common
  import opened HarnessMeter
  import opened HarnessProtocol

  /** A try sees the rows the ledger holds at that moment. */
  datatype Call = TryTurn(rows: seq<Row>, req: Request) | CountTurn

  /** The counter after these calls. */
  function TurnIndex(calls: seq<Call>): nat {
    if calls == [] then 0
    else TurnIndex(calls[..|calls| - 1]) + if calls[|calls| - 1].CountTurn? then 1 else 0
  }

  /** How the session answers a try made after `calls`. */
  function Answer(cfg: Config, maxTurns: nat, calls: seq<Call>, rows: seq<Row>, req: Request): Outcome {
    Authorize(cfg, rows, Gated(TurnIndex(calls), maxTurns, req))
  }

  /** A turn is counted only after the try right before it was let through. */
  predicate Counted(cfg: Config, maxTurns: nat, calls: seq<Call>) {
    calls != [] ==>
      var init, last := calls[..|calls| - 1], calls[|calls| - 1];
      && Counted(cfg, maxTurns, init)
      && (last.CountTurn? ==>
            && init != [] && init[|init| - 1].TryTurn?
            && !Answer(cfg, maxTurns, init[..|init| - 1], init[|init| - 1].rows, init[|init| - 1].req).Refused?)
  }

  /** Once the budget is used up every try is refused and writes nothing: for drift when the composition
      check fails, otherwise for the turn budget, before any other gate or the ledger is looked at. */
  lemma SpentBudgetRefuses(cfg: Config, maxTurns: nat, calls: seq<Call>, rows: seq<Row>, req: Request)
    requires TurnIndex(calls) >= maxTurns
    ensures Answer(cfg, maxTurns, calls, rows, req)
         == Refused(if req.gate == Some(Composition) then Composition else TurnBudget)
    ensures AuthorizeRows(cfg, rows, Gated(TurnIndex(calls), maxTurns, req)) == rows
  {
  }

  /** A session never counts more turns than its budget, whatever the ledger does in between. */
  lemma {:induction false} TurnsWithinBudget(cfg: Config, maxTurns: nat, calls: seq<Call>)
    requires Counted(cfg, maxTurns, calls)
    ensures TurnIndex(calls) <= maxTurns
  {
    if calls != [] {
      var init, last := calls[..|calls| - 1], calls[|calls| - 1];
      TurnsWithinBudget(cfg, maxTurns, init);
      if last.CountTurn? && TurnIndex(init) >= maxTurns {
        var before := init[..|init| - 1];
        assert TurnIndex(before) == TurnIndex(init);
        SpentBudgetRefuses(cfg, maxTurns, before, init[|init| - 1].rows, init[|init| - 1].req);
        assert false;
      }
    }
  }
}
