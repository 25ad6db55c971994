/** The session owner of one external-harness run. Several sessions share a project's ledger; each
    call below is one transaction under the project-row lock. */
module HarnessSession {
  import opened Common
  import opened HarnessMeter
  import opened HarnessProtocol
  import Pricing

  /** Today's `harness_session_turn` rows of one project. Rows are only ever appended. */
  class DebitLedger {
    var rows: seq<Row>

    constructor ()
      ensures rows == []
    {
      rows := [];
    }
  }

  /** True when a release credit for `hid` already sits on the ledger. */
  method HoldHasRelease(rows: seq<Row>, hid: Id) returns (found: bool)
    ensures found <==> hid in ReleasedIds(rows)
  {
    ReleasedIff(rows, hid);
    for i := 0 to |rows|
      invariant forall j :: 0 <= j < i ==> rows[j].kind != Release(Some(hid))
    {
      if rows[i].kind == Release(Some(hid)) {
        assert rows[i] in rows;
        return true;
      }
    }
    return false;
  }

  /** Credit every unmatched hold older than the TTL; the caller decides whether to commit. */
  method ReleaseStaleHolds(rows: seq<Row>, ttl: int, now: Time) returns (credited: seq<Row>)
    ensures credited == Recovered(rows, ttl, now)
  {
    credited := rows;
    var open := UnmatchedHolds(rows);
    for i := 0 to |open|
      invariant credited == rows + StaleReleases(open[..i], ttl, now)
    {
      assert open[..i + 1][..i] == open[..i];
      if IsStale(open[i].at, ttl, now) {
        credited := credited + [ReleaseOf(open[i], open[i].actor, now)];
      }
    }
    assert open[..|open|] == open;
  }

  /** Sum of tokens over the rows. */
  method SumTokens(rows: seq<Row>) returns (used: int)
    ensures used == TokensToday(rows)
  {
    used := 0;
    for i := 0 to |rows|
      invariant used == TokensToday(rows[..i])
    {
      assert rows[..i + 1][..i] == rows[..i];
      used := used + rows[i].tokens;
    }
    assert rows[..|rows|] == rows;
  }

  /** Billed tokens of one seat: adjustments and non-positive rows are skipped. */
  method BilledAgentSpend(rows: seq<Row>, seat: Id) returns (tokens: int)
    ensures tokens == SeatBilled(rows, seat)
  {
    tokens := 0;
    for i := 0 to |rows|
      invariant tokens == SeatBilled(rows[..i], seat)
    {
      assert rows[..i + 1][..i] == rows[..i];
      if rows[i].actor == Some(seat) && !(rows[i].tokens <= 0 || !rows[i].kind.Spend?) {
        tokens := tokens + rows[i].tokens;
      }
    }
    assert rows[..|rows|] == rows;
  }

  /** Unmatched hold tokens stamped to one seat. */
  method OutstandingHoldTokens(rows: seq<Row>, seat: Id) returns (total: int)
    ensures total == SeatHeld(Unmatched(rows), seat)
  {
    var open := UnmatchedHolds(rows);
    total := 0;
    for i := 0 to |open|
      invariant total == SeatHeld(open[..i], seat)
    {
      assert open[..i + 1][..i] == open[..i];
      if open[i].actor == Some(seat) {
        total := total + Max(0, open[i].tokens);
      }
    }
    assert open[..|open|] == open;
  }

  /** A seat's remaining lifetime tokens; open holds matter only when a cap is set. */
  method LoadSeatRoom(cfg: Config, rows: seq<Row>, seat: Id) returns (remaining: Option<nat>)
    ensures remaining == SeatRemaining(cfg, rows, seat)
  {
    var billed := BilledAgentSpend(rows, seat);
    var held := 0;
    if seat in cfg.seatCaps {
      held := OutstandingHoldTokens(rows, seat);
    }
    return TokenRemaining(SeatCap(cfg, seat), BilledBefore(cfg, seat) + billed, held);
  }

  class Session {
    const ledger: DebitLedger
    const cfg: Config
    const maxTurns: nat
    var turnIndex: nat
    var boundActor: Option<Id>

    /** Startup refuses settings under which a live turn could outlive its hold. */
    constructor (ledger: DebitLedger, cfg: Config, maxTurns: nat, timeout: Time)
      requires HoldTtlCoversTurn(cfg.ttl, timeout)
      ensures this.ledger == ledger && this.cfg == cfg && this.maxTurns == maxTurns
      ensures turnIndex == 0 && boundActor == None
    {
      this.ledger := ledger;
      this.cfg := cfg;
      this.maxTurns := maxTurns;
      turnIndex := 0;
      boundActor := None;
    }

    /** Take the whole remaining room as a hold, or refuse and write nothing. A caller that passes
        the gates stays bound even when the room checks then refuse the turn. */
    method Authorize(request: Request) returns (outcome: Outcome)
      modifies this`boundActor, ledger
      ensures var req := Gated(turnIndex, maxTurns, request);
              && outcome == HarnessProtocol.Authorize(cfg, old(ledger.rows), req)
              && ledger.rows == AuthorizeRows(cfg, old(ledger.rows), req)
              && boundActor == if req.gate.Some? then old(boundActor) else Some(request.actor)
    {
      var req := Gated(turnIndex, maxTurns, request);
      if req.gate.Some? {
        return Refused(req.gate.value);
      }
      boundActor := Some(req.actor);
      var pending := ReleaseStaleHolds(ledger.rows, cfg.ttl, req.at);
      var used := SumTokens(pending);
      if used < 0 || used >= cfg.cap {
        return Refused(DailyCapExhausted);
      }
      if req.funded > 0 && req.available <= 0 {
        return Refused(ProjectBudget);
      }
      var remaining := LoadSeatRoom(cfg, pending, req.actor);
      var refusal := CapRefusal(remaining, req.usdRemaining);
      if refusal.Some? {
        return Refused(refusal.value);
      }
      if !req.projectExists {
        return NoProject;
      }
      var dailyRoom := cfg.cap - used;
      var rate := KnownRate(req);
      var potRoom := PotRoom(req);
      var clamp := Pricing.TurnClamp(dailyRoom, potRoom, AgentRoom(remaining, req.usdRemaining, rate));
      if clamp < cfg.floor {
        return Refused(TurnRoom);
      }
      var hold := DailyCapHold(dailyRoom, req.holdId, clamp, potRoom, rate.Some?);
      ledger.rows := pending + [HoldRow(hold, req.actor, req.at)];
      return Granted(hold);
    }

    /** Append the release credit, unless recovery already did. */
    method ReleaseHold(hold: Option<DailyCapHold>, now: Time)
      modifies ledger
      ensures ledger.rows == if hold.Some? then CloseHold(old(ledger.rows), hold.value, boundActor, now)
                             else old(ledger.rows)
    {
      if hold.None? || hold.value.tokens <= 0 {
        return;
      }
      var already := HoldHasRelease(ledger.rows, hold.value.hid);
      if !already {
        ledger.rows := ledger.rows + [Row(boundActor, -hold.value.tokens, now, Release(Some(hold.value.hid)))];
      }
    }

    /** Convert: the matching release and the tokens that moved, in one transaction. `stamped` is the
        actor the token row still names after a mid-turn revocation, when there is one. */
    method RecordSpend(tokens: int, hold: Option<DailyCapHold>, stamped: Option<Id>, now: Time) returns (debited: bool)
      modifies ledger
      ensures var actor := if stamped.Some? then stamped else boundActor;
              ledger.rows == ConvertRows(old(ledger.rows), hold, tokens, actor, now)
      ensures debited <==> tokens > 0
    {
      if tokens <= 0 && hold.None? {
        return false;
      }
      var actor := if stamped.Some? then stamped else boundActor;
      var pending := ledger.rows;
      if hold.Some? && hold.value.tokens > 0 {
        var already := HoldHasRelease(pending, hold.value.hid);
        if !already {
          pending := pending + [Row(actor, -hold.value.tokens, now, Release(Some(hold.value.hid)))];
        }
      }
      if tokens > 0 {
        pending := pending + [Row(actor, tokens, now, Spend)];
      }
      ledger.rows := pending;
      return tokens > 0;
    }

    /** Count a started completion against the turn cap. */
    method Advance() returns (index: nat)
      modifies this`turnIndex
      ensures turnIndex == old(turnIndex) + 1 && index == turnIndex
    {
      turnIndex := turnIndex + 1;
      return turnIndex;
    }
  }
}
