/** The rows of one UTC day refine a two-field machine: tokens spent, and at most one open hold. */
module HarnessMachine {
  import opened Common
  import opened HarnessMeter
  import opened HarnessProtocol
  import Pricing

  // ----- the simple machine -----

  /** Tokens spent so far and the open hold, if any. */
  datatype Machine = Machine(spent: int, hold: Option<Row>)

  function Held(m: Machine): int {
    if m.hold.Some? then m.hold.value.tokens else 0
  }

  /** What the rows mean: spend accumulates, a hold opens, a release closes it. */
  function Replay(rows: seq<Row>): Machine {
    if rows == [] then Machine(0, None)
    else
      var m, last := Replay(rows[..|rows| - 1]), rows[|rows| - 1];
      match last.kind
      case Hold(_) => m.(hold := Some(last))
      case Release(_) => m.(hold := None)
      case Spend => m.(spent := m.spent + last.tokens)
  }

  function HoldIds(rows: seq<Row>): set<Id> {
    if rows == [] then {}
    else HoldIds(rows[..|rows| - 1]) + if IsIdHold(rows[|rows| - 1]) then {rows[|rows| - 1].kind.hid.value} else {}
  }

  predicate LegalNext(rows: seq<Row>, r: Row) {
    match r.kind
    case Hold(h) => h.Some? && h.value !in HoldIds(rows) && Replay(rows).hold.None? && r.tokens > 0
    case Release(h) =>
      var hold := Replay(rows).hold;
      h.Some? && hold.Some? && hold.value.kind == Hold(h) && r.tokens == -hold.value.tokens
    case Spend => r.tokens > 0
  }

  /** A hold opens only when none is open, and under a new id; a release closes the open hold with
      exactly the opposite tokens; spend is positive. */
  predicate Legal(rows: seq<Row>) {
    rows == [] || (Legal(rows[..|rows| - 1]) && LegalNext(rows[..|rows| - 1], rows[|rows| - 1]))
  }

  lemma LegalAppend(rows: seq<Row>, r: Row)
    requires Legal(rows) && LegalNext(rows, r)
    ensures Legal(rows + [r])
    ensures Replay(rows + [r]) ==
            var m := Replay(rows);
            if r.kind.Hold? then m.(hold := Some(r))
            else if r.kind.Release? then m.(hold := None)
            else m.(spent := m.spent + r.tokens)
    ensures HoldIds(rows + [r]) == if IsIdHold(r) then HoldIds(rows) + {r.kind.hid.value} else HoldIds(rows)
  {
    assert (rows + [r])[..|rows|] == rows;
  }

  // ----- the rows refine the machine -----

  /** Row by row: the sum, the open holds and the released ids of legal rows. */
  lemma {:induction false} LegalMeans(rows: seq<Row>)
    requires Legal(rows)
    ensures TokensToday(rows) == Replay(rows).spent + Held(Replay(rows))
    ensures Replay(rows).spent >= 0 && Held(Replay(rows)) >= 0
    ensures var m := Replay(rows);
            OpenHolds(rows) == if m.hold.Some? then [m.hold.value] else []
    ensures ReleasedIds(rows) <= HoldIds(rows)
    ensures LegacyHolds(rows) == [] && LegacyReleases(rows) == []
  {
    if rows != [] {
      var prefix, r := rows[..|rows| - 1], rows[|rows| - 1];
      assert rows == prefix + [r];
      LegalMeans(prefix);
      LegalAppend(prefix, r);
      TokensAppend(prefix, r);
      ReleasedAppend(prefix, r);
      ClassifyAppend(prefix, r);
      OpenAmongAppend(prefix, r, ReleasedIds(rows));
      if Replay(prefix).hold.Some? {
        OpenHoldIsIdentified(prefix);
      }
      match r.kind {
        case Hold(_) =>
        case Release(h) => ReleaseOneMore(prefix, ReleasedIds(prefix), h.value);
        case Spend =>
      }
    }
  }

  /** The open hold of legal rows carries an id that the rows know. */
  lemma {:induction false} OpenHoldIsIdentified(rows: seq<Row>)
    requires Legal(rows) && Replay(rows).hold.Some?
    ensures var hold := Replay(rows).hold.value;
            hold in rows && IsIdHold(hold) && hold.tokens > 0 && hold.kind.hid.value in HoldIds(rows)
  {
    var prefix, r := rows[..|rows| - 1], rows[|rows| - 1];
    assert rows == prefix + [r];
    LegalAppend(prefix, r);
    if r.kind.Spend? {
      OpenHoldIsIdentified(prefix);
    }
  }

  /** Releasing one more id removes exactly the holds with that id from the open ones. */
  lemma {:induction false} ReleaseOneMore(rows: seq<Row>, released: set<Id>, h: Id)
    ensures OpenAmong(rows, released + {h}) == WithoutId(OpenAmong(rows, released), h)
  {
    if rows != [] {
      var prefix, r := rows[..|rows| - 1], rows[|rows| - 1];
      assert rows == prefix + [r];
      ReleaseOneMore(prefix, released, h);
      assert (OpenAmong(prefix, released) + [r])[..|OpenAmong(prefix, released)|] == OpenAmong(prefix, released);
    }
  }

  function WithoutId(open: seq<Row>, h: Id): seq<Row> {
    if open == [] then []
    else
      var last := open[|open| - 1];
      if last.kind == Hold(Some(h)) then WithoutId(open[..|open| - 1], h)
      else WithoutId(open[..|open| - 1], h) + [last]
  }

  lemma LegalOpen(rows: seq<Row>)
    requires Legal(rows)
    ensures var m := Replay(rows);
            Unmatched(rows) == if m.hold.Some? then [m.hold.value] else []
  {
    LegalMeans(rows);
    var none: seq<Row> := [];
    assert OpenHolds(rows) + none == OpenHolds(rows);
  }

  // ----- the machine's own authorize and convert -----

  /** The hold that survives recovery at `now`. */
  function Kept(cfg: Config, m: Machine, now: Time): Machine {
    if m.hold.Some? && IsStale(m.hold.value.at, cfg.ttl, now) then m.(hold := None) else m
  }

  function SeatHolds(m: Machine, seat: Id): int {
    if m.hold.Some? && m.hold.value.actor == Some(seat) then Max(0, m.hold.value.tokens) else 0
  }

  /** Authorize decided from the two fields alone (`billed` is the seat's lifetime spend). */
  function MachineAuthorize(cfg: Config, m: Machine, billed: int, req: Request): Outcome {
    var kept := Kept(cfg, m, req.at);
    if req.gate.Some? then Refused(req.gate.value)
    else Decide(cfg, kept.spent + Held(kept),
                TokenRemaining(SeatCap(cfg, req.actor), billed, SeatHolds(kept, req.actor)), req)
  }

  function MachineConvert(m: Machine, hid: Id, tokens: int): Machine {
    Machine(m.spent + Max(tokens, 0),
            if m.hold.Some? && m.hold.value.kind == Hold(Some(hid)) then None else m.hold)
  }

  /** Recovery on legal rows credits the one hold, if it is stale, and nothing else. */
  lemma RecoveredMeans(cfg: Config, rows: seq<Row>, now: Time)
    requires Legal(rows)
    ensures var credited := Recovered(rows, cfg.ttl, now);
            && Legal(credited)
            && Replay(credited) == Kept(cfg, Replay(rows), now)
            && HoldIds(credited) == HoldIds(rows)
            && (credited == rows || (Replay(rows).hold.Some? && IsStale(Replay(rows).hold.value.at, cfg.ttl, now)
                && credited == rows + [ReleaseOf(Replay(rows).hold.value, Replay(rows).hold.value.actor, now)]))
  {
    LegalOpen(rows);
    var m := Replay(rows);
    var none: seq<Row> := [];
    assert StaleReleases(none, cfg.ttl, now) == [];
    if m.hold.Some? {
      var hold := m.hold.value;
      OpenHoldIsIdentified(rows);
      assert [hold][..0] == none;
      assert StaleReleases([hold], cfg.ttl, now)
          == if IsStale(hold.at, cfg.ttl, now) then none + [ReleaseOf(hold, hold.actor, now)] else none;
      if IsStale(hold.at, cfg.ttl, now) {
        LegalAppend(rows, ReleaseOf(hold, hold.actor, now));
        assert none + [ReleaseOf(hold, hold.actor, now)] == [ReleaseOf(hold, hold.actor, now)];
      } else {
        assert rows + none == rows;
      }
    } else {
      assert rows + none == rows;
    }
  }

  lemma SeatBilledAppend(rows: seq<Row>, r: Row, seat: Id)
    ensures SeatBilled(rows + [r], seat)
         == SeatBilled(rows, seat) + if r.kind.Spend? && r.actor == Some(seat) && r.tokens > 0 then r.tokens else 0
  {
    assert (rows + [r])[..|rows|] == rows;
  }

  /** What the decision reads, in the machine's terms. */
  lemma CreditedReads(cfg: Config, rows: seq<Row>, now: Time, seat: Id)
    requires Legal(rows)
    ensures var credited, kept := Recovered(rows, cfg.ttl, now), Kept(cfg, Replay(rows), now);
            && TokensToday(credited) == kept.spent + Held(kept)
            && SeatHeld(Unmatched(credited), seat) == SeatHolds(kept, seat)
            && SeatBilled(credited, seat) == SeatBilled(rows, seat)
  {
    var credited := Recovered(rows, cfg.ttl, now);
    RecoveredMeans(cfg, rows, now);
    LegalMeans(credited);
    LegalOpen(credited);
    var m := Replay(credited);
    if m.hold.Some? {
      assert [m.hold.value][..0] == [];
    }
    if credited != rows {
      var hold := Replay(rows).hold.value;
      SeatBilledAppend(rows, ReleaseOf(hold, hold.actor, now), seat);
    }
  }

  /** Authorize on rows decides exactly as on the machine. */
  lemma AuthorizeRefines(cfg: Config, rows: seq<Row>, req: Request)
    requires Legal(rows)
    ensures Authorize(cfg, rows, req)
         == MachineAuthorize(cfg, Replay(rows), BilledBefore(cfg, req.actor) + SeatBilled(rows, req.actor), req)
  {
    CreditedReads(cfg, rows, req.at, req.actor);
    if req.gate.None? {
      var credited, kept := Recovered(rows, cfg.ttl, req.at), Kept(cfg, Replay(rows), req.at);
      var remaining := SeatRemaining(cfg, credited, req.actor);
      assert remaining == TokenRemaining(SeatCap(cfg, req.actor), BilledBefore(cfg, req.actor) + SeatBilled(rows, req.actor),
                                         SeatHolds(kept, req.actor));
      SameDecision(cfg, TokensToday(credited), kept.spent + Held(kept), remaining, req);
    }
  }

  lemma SameDecision(cfg: Config, used: int, sum: int, remaining: Option<nat>, req: Request)
    requires used == sum
    ensures Decide(cfg, used, remaining, req) == Decide(cfg, sum, remaining, req)
  {
  }

  /** What a granted decision promises about its hold. */
  lemma GrantPromises(cfg: Config, used: int, remaining: Option<nat>, req: Request)
    requires Decide(cfg, used, remaining, req).Granted?
    ensures var hold := Decide(cfg, used, remaining, req).hold;
            && 0 <= used < cfg.cap && hold.tokens == cfg.cap - used && hold.hid == req.holdId
            && cfg.floor <= hold.clamp <= hold.tokens
            && (remaining.Some? ==> hold.clamp <= remaining.value)
  {
    Pricing.ClampFitsEveryRoom(cfg.cap - used, PotRoom(req), AgentRoom(remaining, req.usdRemaining, KnownRate(req)), None);
  }

  /** While a hold is open the day's sum is at least the cap. */
  predicate Exclusive(cfg: Config, m: Machine) {
    m.hold.Some? ==> m.spent + Held(m) >= cfg.cap
  }

  /** A granted authorize leaves the machine with the same spend and the whole remaining room held. */
  lemma GrantRefines(cfg: Config, rows: seq<Row>, req: Request)
    requires Legal(rows) && Exclusive(cfg, Replay(rows)) && req.holdId !in HoldIds(rows)
    requires Authorize(cfg, rows, req).Granted?
    ensures var hold, after := Authorize(cfg, rows, req).hold, AuthorizeRows(cfg, rows, req);
            && Kept(cfg, Replay(rows), req.at).hold.None?
            && hold.hid == req.holdId && hold.tokens == cfg.cap - Replay(rows).spent > 0
            && Legal(after)
            && Replay(after) == Machine(Replay(rows).spent, Some(HoldRow(hold, req.actor, req.at)))
            && HoldIds(after) == HoldIds(rows) + {req.holdId}
  {
    var credited := Recovered(rows, cfg.ttl, req.at);
    CreditedReads(cfg, rows, req.at, req.actor);
    GrantPromises(cfg, TokensToday(credited), SeatRemaining(cfg, credited, req.actor), req);
    RecoveredMeans(cfg, rows, req.at);
    LegalAppend(credited, HoldRow(Authorize(cfg, rows, req).hold, req.actor, req.at));
  }

  predicate IsOpen(m: Machine, hid: Id) {
    m.hold.Some? && m.hold.value.kind == Hold(Some(hid))
  }

  lemma OpenRowIsHold(rows: seq<Row>, r: Row)
    requires Legal(rows)
    ensures r in rows && IsIdHold(r) && r.kind.hid.value !in ReleasedIds(rows) <==> Replay(rows).hold == Some(r)
  {
    LegalMeans(rows);
    OpenAmongIff(rows, ReleasedIds(rows), r);
    var open := OpenHolds(rows);
    assert r in open <==> Replay(rows).hold == Some(r);
  }

  /** A known hold is open on the machine exactly when no release names it, and then it is that row. */
  lemma OpenIffUnreleased(rows: seq<Row>, hold: Row)
    requires Legal(rows) && hold in rows && IsIdHold(hold)
    ensures hold.kind.hid.value !in ReleasedIds(rows) <==> Replay(rows).hold == Some(hold)
    ensures IsOpen(Replay(rows), hold.kind.hid.value) <==> Replay(rows).hold == Some(hold)
  {
    OpenRowIsHold(rows, hold);
    if Replay(rows).hold.Some? {
      OpenRowIsHold(rows, Replay(rows).hold.value);
    }
  }

  lemma CloseRefines(rows: seq<Row>, hold: DailyCapHold, taken: Row, actor: Option<Id>, now: Time)
    requires Legal(rows) && hold.tokens > 0
    requires taken in rows && taken.kind == Hold(Some(hold.hid)) && taken.tokens == hold.tokens
    ensures var after := CloseHold(rows, hold, actor, now);
            Legal(after) && Replay(after) == MachineConvert(Replay(rows), hold.hid, 0) && HoldIds(after) == HoldIds(rows)
  {
    OpenIffUnreleased(rows, taken);
    if hold.hid !in ReleasedIds(rows) {
      LegalAppend(rows, Row(actor, -hold.tokens, now, Release(Some(hold.hid))));
    }
  }

  lemma SpendRefines(rows: seq<Row>, tokens: int, actor: Option<Id>, now: Time)
    requires Legal(rows)
    ensures var after := rows + SpendRows(tokens, actor, now);
            && Legal(after) && HoldIds(after) == HoldIds(rows)
            && Replay(after) == Replay(rows).(spent := Replay(rows).spent + Max(tokens, 0))
  {
    if tokens > 0 {
      LegalAppend(rows, Row(actor, tokens, now, Spend));
    } else {
      assert rows + SpendRows(tokens, actor, now) == rows;
    }
  }

  /** Converting a turn refines the machine's convert; a turn whose hold was already credited only spends. */
  lemma ConvertRefines(rows: seq<Row>, hold: DailyCapHold, taken: Row, tokens: int, actor: Option<Id>, now: Time)
    requires Legal(rows) && hold.tokens > 0
    requires taken in rows && taken.kind == Hold(Some(hold.hid)) && taken.tokens == hold.tokens
    ensures var after := ConvertRows(rows, Some(hold), tokens, actor, now);
            Legal(after) && Replay(after) == MachineConvert(Replay(rows), hold.hid, tokens) && HoldIds(after) == HoldIds(rows)
  {
    CloseRefines(rows, hold, taken, actor, now);
    SpendRefines(CloseHold(rows, hold, actor, now), tokens, actor, now);
  }
}
