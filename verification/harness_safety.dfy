/** Safety over whole runs of the hold/release protocol.

    A run is any interleaving, on one project and within one UTC day, of authorize, convert,
    release and unheld spend by any number of sessions, under one configuration. Calls are atomic
    (the project row is locked) and time does not run backwards. Refused calls are part of a run. */
module HarnessSafety {
  import opened Common
  import opened HarnessMeter
  import opened HarnessProtocol
  import opened HarnessMachine
  import Pricing

  datatype Turn = Turn(hold: DailyCapHold, actor: Id, at: Time)

  /** `Convert` and `ReleaseTurn` name the turn by its hold id; `actor` is whom the rows are stamped with. */
  datatype Event =
    | TakeTurn(req: Request)
    | Convert(hid: Id, tokens: int, actor: Option<Id>, at: Time)
    | ReleaseTurn(hid: Id, actor: Option<Id>, at: Time)
    | UnheldSpend(tokens: int, actor: Option<Id>, at: Time)

  /** The rows, and the history the safety statements speak of: the turns granted and finished, the
      tokens reported above a live turn's clamp, those recorded after the turn's hold was already
      credited, those recorded without a hold, and each seat's share of all three. */
  datatype State = State(rows: seq<Row>, now: Time, turns: map<Id, Turn>, done: set<Id>,
                         overshoot: nat, late: nat, unheld: nat, seatExcess: map<Id, nat>)

  const START := State([], 0.0, map[], {}, 0, 0, 0, map[])

  function When(e: Event): Time {
    match e
    case TakeTurn(req) => req.at
    case Convert(_, _, _, at) => at
    case ReleaseTurn(_, _, at) => at
    case UnheldSpend(_, _, at) => at
  }

  /** Time moves forward, drawn hold ids are new, and only granted turns convert or release. */
  predicate Possible(s: State, e: Event) {
    && When(e) >= s.now
    && match e
       case TakeTurn(req) => req.holdId !in s.turns
       case Convert(hid, _, _, _) => hid in s.turns
       case ReleaseTurn(hid, _, _) => hid in s.turns
       case UnheldSpend(_, _, _) => true
  }

  function Excess(s: State, seat: Id): nat {
    if seat in s.seatExcess then s.seatExcess[seat] else 0
  }

  function AddExcess(s: State, actor: Option<Id>, tokens: nat): map<Id, nat> {
    if actor.Some? then s.seatExcess[actor.value := Excess(s, actor.value) + tokens] else s.seatExcess
  }

  /** A turn is reserved while no release names its hold. */
  predicate Reserved(s: State, hid: Id) {
    hid !in ReleasedIds(s.rows)
  }

  function Step(cfg: Config, s: State, e: Event): State
    requires Possible(s, e)
  {
    match e
    case TakeTurn(req) => (
      match Authorize(cfg, s.rows, req)
      case Granted(hold) =>
        s.(rows := AuthorizeRows(cfg, s.rows, req), now := req.at, turns := s.turns[hold.hid := Turn(hold, req.actor, req.at)])
      case _ => s.(rows := AuthorizeRows(cfg, s.rows, req), now := req.at))
    case Convert(hid, tokens, actor, at) =>
      var turn, live := s.turns[hid], Reserved(s, hid);
      var over := Pricing.Overshoot(tokens, turn.hold.clamp);
      s.(rows := ConvertRows(s.rows, Some(turn.hold), tokens, actor, at), now := at, done := s.done + {hid},
         overshoot := s.overshoot + (if live then over else 0),
         late := s.late + (if live then 0 else Max(tokens, 0)),
         seatExcess := AddExcess(s, actor, if live && actor == Some(turn.actor) then over else Max(tokens, 0)))
    case ReleaseTurn(hid, actor, at) =>
      s.(rows := CloseHold(s.rows, s.turns[hid].hold, actor, at), now := at, done := s.done + {hid})
    case UnheldSpend(tokens, actor, at) =>
      s.(rows := ConvertRows(s.rows, None, tokens, actor, at), now := at,
         unheld := s.unheld + Max(tokens, 0), seatExcess := AddExcess(s, actor, Max(tokens, 0)))
  }

  predicate PossibleRun(cfg: Config, events: seq<Event>)
    decreases |events|, 0
  {
    events == [] || (PossibleRun(cfg, events[..|events| - 1])
                     && Possible(Run(cfg, events[..|events| - 1]), events[|events| - 1]))
  }

  function Run(cfg: Config, events: seq<Event>): State
    requires PossibleRun(cfg, events)
    decreases |events|, 1
  {
    if events == [] then START else Step(cfg, Run(cfg, events[..|events| - 1]), events[|events| - 1])
  }

  // ----- the invariant -----

  function TurnRow(t: Turn): Row {
    HoldRow(t.hold, t.actor, t.at)
  }

  /** Every granted turn's hold is on the ledger, and the open hold is a granted turn's. */
  ghost predicate TurnsOnLedger(s: State) {
    && HoldIds(s.rows) == s.turns.Keys
    && (forall h :: h in s.turns ==>
          && s.turns[h].hold.hid == h && 0 < s.turns[h].hold.tokens && s.turns[h].hold.clamp <= s.turns[h].hold.tokens
          && s.turns[h].at <= s.now && TurnRow(s.turns[h]) in s.rows)
  }

  /** The clamp the open hold still owes to `seat`. */
  function OpenClamp(s: State, seat: Id): nat {
    var m := Replay(s.rows);
    if m.hold.Some? && IsIdHold(m.hold.value) && m.hold.value.kind.hid.value in s.turns
       && s.turns[m.hold.value.kind.hid.value].actor == seat
    then s.turns[m.hold.value.kind.hid.value].hold.clamp else 0
  }

  ghost predicate SeatWithin(cfg: Config, s: State, seat: Id) {
    seat in cfg.seatCaps && BilledBefore(cfg, seat) <= cfg.seatCaps[seat] ==>
      BilledBefore(cfg, seat) + SeatBilled(s.rows, seat) + OpenClamp(s, seat) <= cfg.seatCaps[seat] + Excess(s, seat)
  }

  ghost predicate Safe(cfg: Config, s: State) {
    && Legal(s.rows)
    && TurnsOnLedger(s)
    && Exclusive(cfg, Replay(s.rows))
    && Replay(s.rows).spent + Held(Replay(s.rows)) <= cfg.cap + s.overshoot + s.late + s.unheld
  }

  /** Granted turns keep their rows when rows are only appended. */
  lemma TurnsStay(s: State, t: State)
    requires TurnsOnLedger(s) && s.rows <= t.rows && s.now <= t.now
    requires t.turns == s.turns && HoldIds(t.rows) == HoldIds(s.rows)
    ensures TurnsOnLedger(t)
  {
    forall h | h in t.turns ensures TurnRow(t.turns[h]) in t.rows {
      assert TurnRow(s.turns[h]) in s.rows;
    }
  }

  lemma NewTurnOnLedger(s: State, t: State, turn: Turn)
    requires TurnsOnLedger(s) && s.rows <= t.rows && s.now <= t.now == turn.at
    requires 0 < turn.hold.tokens && turn.hold.clamp <= turn.hold.tokens && TurnRow(turn) in t.rows
    requires t.turns == s.turns[turn.hold.hid := turn] && HoldIds(t.rows) == HoldIds(s.rows) + {turn.hold.hid}
    ensures TurnsOnLedger(t)
  {
    forall h | h in t.turns ensures TurnRow(t.turns[h]) in t.rows {
      if h != turn.hold.hid {
        assert TurnRow(s.turns[h]) in s.rows;
      }
    }
  }

  lemma TakeTurnIsSafe(cfg: Config, s: State, req: Request)
    requires Safe(cfg, s) && Possible(s, TakeTurn(req))
    ensures Safe(cfg, Step(cfg, s, TakeTurn(req)))
  {
    var t := Step(cfg, s, TakeTurn(req));
    if Authorize(cfg, s.rows, req).Granted? {
      GrantRefines(cfg, s.rows, req);
      var credited := Recovered(s.rows, cfg.ttl, req.at);
      GrantPromises(cfg, TokensToday(credited), SeatRemaining(cfg, credited, req.actor), req);
      NewTurnOnLedger(s, t, t.turns[req.holdId]);
    } else {
      TurnsStay(s, t);
    }
  }

  lemma ConvertIsSafe(cfg: Config, s: State, hid: Id, tokens: int, actor: Option<Id>, at: Time)
    requires Safe(cfg, s) && Possible(s, Convert(hid, tokens, actor, at))
    ensures Safe(cfg, Step(cfg, s, Convert(hid, tokens, actor, at)))
  {
    var turn := s.turns[hid];
    ConvertRefines(s.rows, turn.hold, TurnRow(turn), tokens, actor, at);
    OpenIffUnreleased(s.rows, TurnRow(turn));
    TurnsStay(s, Step(cfg, s, Convert(hid, tokens, actor, at)));
  }

  lemma CloseIsSafe(cfg: Config, s: State, e: Event)
    requires Safe(cfg, s) && Possible(s, e) && !e.TakeTurn?
    ensures Safe(cfg, Step(cfg, s, e))
  {
    match e {
      case Convert(hid, tokens, actor, at) =>
        ConvertIsSafe(cfg, s, hid, tokens, actor, at);
      case ReleaseTurn(hid, actor, at) =>
        CloseRefines(s.rows, s.turns[hid].hold, TurnRow(s.turns[hid]), actor, at);
        TurnsStay(s, Step(cfg, s, e));
      case UnheldSpend(tokens, actor, at) =>
        SpendRefines(s.rows, tokens, actor, at);
        TurnsStay(s, Step(cfg, s, e));
    }
  }

  lemma {:induction false} RunsAreSafe(cfg: Config, events: seq<Event>)
    requires PossibleRun(cfg, events)
    ensures Safe(cfg, Run(cfg, events))
  {
    if events != [] {
      var prefix, e := events[..|events| - 1], events[|events| - 1];
      RunsAreSafe(cfg, prefix);
      if e.TakeTurn? {
        TakeTurnIsSafe(cfg, Run(cfg, prefix), e.req);
      } else {
        CloseIsSafe(cfg, Run(cfg, prefix), e);
      }
    }
  }

  // ----- main results -----

  /** Cap safety. After any run, spend plus the open hold exceed the daily cap by at most the
      reported overshoot, the spend of turns whose hold had already been credited, and unheld spend;
      and the day's sum is exactly spend plus the open hold, never negative. */
  lemma CapSafety(cfg: Config, events: seq<Event>)
    requires PossibleRun(cfg, events)
    ensures var s := Run(cfg, events);
            && TokensToday(s.rows) == Replay(s.rows).spent + Held(Replay(s.rows))
            && 0 <= Replay(s.rows).spent <= TokensToday(s.rows) <= cfg.cap + s.overshoot + s.late + s.unheld
  {
    RunsAreSafe(cfg, events);
    LegalMeans(Run(cfg, events).rows);
  }

  /** Exclusion. After any run at most one hold is open; while it is, the day's sum is at least the
      cap, and an authorize that finds it not yet stale is refused and writes nothing. */
  lemma Exclusion(cfg: Config, events: seq<Event>, req: Request)
    requires PossibleRun(cfg, events)
    ensures var rows := Run(cfg, events).rows;
            && |Unmatched(rows)| <= 1
            && (Unmatched(rows) != [] ==>
                  && TokensToday(rows) >= cfg.cap
                  && (!IsStale(Unmatched(rows)[0].at, cfg.ttl, req.at) ==>
                        !Authorize(cfg, rows, req).Granted? && AuthorizeRows(cfg, rows, req) == rows))
  {
    RunsAreSafe(cfg, events);
    var rows := Run(cfg, events).rows;
    LegalMeans(rows);
    LegalOpen(rows);
    CreditedReads(cfg, rows, req.at, req.actor);
  }

  /** Ledger shape. After any run two releases never name the same hold, and each release follows
      the hold it names and carries exactly the opposite tokens. */
  lemma ReleasesMatchHolds(cfg: Config, events: seq<Event>, i: nat)
    requires PossibleRun(cfg, events)
    requires i < |Run(cfg, events).rows| && Run(cfg, events).rows[i].kind.Release?
    ensures var rows := Run(cfg, events).rows;
            && rows[i].kind.hid.Some?
            && (exists j :: 0 <= j < i && rows[j].kind == Hold(rows[i].kind.hid) && rows[j].tokens == -rows[i].tokens)
            && (forall j :: 0 <= j < |rows| && j != i && rows[j].kind.Release? ==> rows[j].kind != rows[i].kind)
  {
    RunsAreSafe(cfg, events);
    var rows := Run(cfg, events).rows;
    ReleaseFollowsItsHold(rows, i);
    forall j | 0 <= j < |rows| && j != i && rows[j].kind.Release? ensures rows[j].kind != rows[i].kind {
      ReleasedOnce(rows, if i < j then i else j, if i < j then j else i);
    }
  }

  lemma {:induction false} LegalPrefix(rows: seq<Row>, n: nat)
    requires Legal(rows) && n <= |rows|
    ensures Legal(rows[..n])
    decreases |rows|
  {
    if n < |rows| {
      LegalPrefix(rows[..|rows| - 1], n);
      assert rows[..|rows| - 1][..n] == rows[..n];
    } else {
      assert rows[..n] == rows;
    }
  }

  lemma ReleaseFollowsItsHold(rows: seq<Row>, i: nat)
    requires Legal(rows) && i < |rows| && rows[i].kind.Release?
    ensures rows[i].kind.hid.Some?
    ensures exists j :: 0 <= j < i && rows[j].kind == Hold(rows[i].kind.hid) && rows[j].tokens == -rows[i].tokens
  {
    LegalPrefix(rows, i + 1);
    assert rows[..i + 1][..i] == rows[..i];
    OpenHoldIsIdentified(rows[..i]);
    var hold := Replay(rows[..i]).hold.value;
    var j :| 0 <= j < i && rows[..i][j] == hold;
    assert rows[j] == hold;
  }

  lemma ReleasedOnce(rows: seq<Row>, i: nat, j: nat)
    requires Legal(rows) && i < j < |rows| && rows[i].kind.Release? && rows[j].kind.Release?
    ensures rows[i].kind != rows[j].kind
  {
    LegalPrefix(rows, j + 1);
    assert rows[..j + 1][..j] == rows[..j];
    OpenHoldIsIdentified(rows[..j]);
    LegalMeans(rows[..j]);
    var hold := Replay(rows[..j]).hold.value;
    OpenRowIsHold(rows[..j], hold);
    ReleasedIff(rows[..j], hold.kind.hid.value);
    assert rows[i] == rows[..j][i];
  }

  // ----- seats -----

  lemma SpendBilled(rows: seq<Row>, tokens: int, actor: Option<Id>, now: Time, seat: Id)
    ensures SeatBilled(rows + SpendRows(tokens, actor, now), seat)
         == SeatBilled(rows, seat) + if actor == Some(seat) then Max(tokens, 0) else 0
  {
    if tokens > 0 {
      SeatBilledAppend(rows, Row(actor, tokens, now, Spend), seat);
    } else {
      assert rows + SpendRows(tokens, actor, now) == rows;
    }
  }

  lemma CloseBillsNothing(rows: seq<Row>, hold: DailyCapHold, actor: Option<Id>, now: Time, seat: Id)
    ensures SeatBilled(CloseHold(rows, hold, actor, now), seat) == SeatBilled(rows, seat)
  {
    SeatBilledAppend(rows, Row(actor, -hold.tokens, now, Release(Some(hold.hid))), seat);
  }

  /** The turn holding the ledger is the one whose hold no release names. */
  lemma OpenClampOf(s: State, hid: Id, seat: Id)
    requires Legal(s.rows) && TurnsOnLedger(s) && hid in s.turns && Reserved(s, hid)
    ensures OpenClamp(s, seat) == if s.turns[hid].actor == seat then s.turns[hid].hold.clamp else 0
  {
    OpenIffUnreleased(s.rows, TurnRow(s.turns[hid]));
  }

  lemma SeatTakeTurn(cfg: Config, s: State, req: Request, seat: Id)
    requires Safe(cfg, s) && SeatWithin(cfg, s, seat) && Possible(s, TakeTurn(req))
    ensures SeatWithin(cfg, Step(cfg, s, TakeTurn(req)), seat)
  {
    var t := Step(cfg, s, TakeTurn(req));
    if Authorize(cfg, s.rows, req).Granted? {
      GrantRefines(cfg, s.rows, req);
      var credited := Recovered(s.rows, cfg.ttl, req.at);
      GrantPromises(cfg, TokensToday(credited), SeatRemaining(cfg, credited, req.actor), req);
      CreditedReads(cfg, s.rows, req.at, req.actor);
      CreditedReads(cfg, s.rows, req.at, seat);
      SeatBilledAppend(credited, TurnRow(t.turns[req.holdId]), seat);
    }
  }

  /** What closing a turn's hold leaves of the open clamp. */
  lemma ClosedClamp(s: State, t: State, hid: Id, seat: Id)
    requires Legal(s.rows) && TurnsOnLedger(s) && hid in s.turns && t.turns == s.turns
    requires Replay(t.rows).hold == MachineConvert(Replay(s.rows), hid, 0).hold
    ensures OpenClamp(t, seat)
         == if Reserved(s, hid) then 0 else OpenClamp(s, seat)
    ensures Reserved(s, hid) ==> OpenClamp(s, seat) == if s.turns[hid].actor == seat then s.turns[hid].hold.clamp else 0
  {
    OpenIffUnreleased(s.rows, TurnRow(s.turns[hid]));
    if Reserved(s, hid) {
      OpenClampOf(s, hid, seat);
    }
  }

  lemma SeatConvert(cfg: Config, s: State, hid: Id, tokens: int, actor: Option<Id>, at: Time, seat: Id)
    requires Safe(cfg, s) && SeatWithin(cfg, s, seat) && Possible(s, Convert(hid, tokens, actor, at))
    ensures SeatWithin(cfg, Step(cfg, s, Convert(hid, tokens, actor, at)), seat)
  {
    var turn, t := s.turns[hid], Step(cfg, s, Convert(hid, tokens, actor, at));
    ConvertRefines(s.rows, turn.hold, TurnRow(turn), tokens, actor, at);
    CloseBillsNothing(s.rows, turn.hold, actor, at, seat);
    SpendBilled(CloseHold(s.rows, turn.hold, actor, at), tokens, actor, at, seat);
    ClosedClamp(s, t, hid, seat);
  }

  lemma SeatClose(cfg: Config, s: State, e: Event, seat: Id)
    requires Safe(cfg, s) && SeatWithin(cfg, s, seat) && Possible(s, e) && !e.TakeTurn?
    ensures SeatWithin(cfg, Step(cfg, s, e), seat)
  {
    match e {
      case Convert(hid, tokens, actor, at) =>
        SeatConvert(cfg, s, hid, tokens, actor, at, seat);
      case ReleaseTurn(hid, actor, at) =>
        CloseRefines(s.rows, s.turns[hid].hold, TurnRow(s.turns[hid]), actor, at);
        CloseBillsNothing(s.rows, s.turns[hid].hold, actor, at, seat);
        ClosedClamp(s, Step(cfg, s, e), hid, seat);
      case UnheldSpend(tokens, actor, at) =>
        SpendRefines(s.rows, tokens, actor, at);
        SpendBilled(s.rows, tokens, actor, at, seat);
    }
  }

  /** Seat safety. A seat that entered the day within its lifetime cap stays within it after any
      run, but for its own overshoot and the spend stamped to it without a live hold of its own. */
  lemma {:induction false} SeatSafety(cfg: Config, events: seq<Event>, seat: Id)
    requires PossibleRun(cfg, events)
    ensures SeatWithin(cfg, Run(cfg, events), seat)
  {
    if events != [] {
      var prefix, e := events[..|events| - 1], events[|events| - 1];
      RunsAreSafe(cfg, prefix);
      SeatSafety(cfg, prefix, seat);
      if e.TakeTurn? {
        SeatTakeTurn(cfg, Run(cfg, prefix), e.req, seat);
      } else {
        SeatClose(cfg, Run(cfg, prefix), e, seat);
      }
    }
  }

  // ----- live turns are never recovered -----

  /** Every turn finishes at most once, and within `duration` of its grant. */
  predicate Timely(s: State, e: Event, duration: Time)
    requires Possible(s, e)
  {
    match e
    case Convert(hid, _, _, at) => hid !in s.done && at <= s.turns[hid].at + duration
    case ReleaseTurn(hid, _, at) => hid !in s.done && at <= s.turns[hid].at + duration
    case _ => true
  }

  predicate TimelyRun(cfg: Config, events: seq<Event>, duration: Time)
    requires PossibleRun(cfg, events)
  {
    events == [] || (TimelyRun(cfg, events[..|events| - 1], duration)
                     && Timely(Run(cfg, events[..|events| - 1]), events[|events| - 1], duration))
  }

  ghost predicate LiveTurnsReserved(s: State, duration: Time) {
    && s.late == 0
    && forall h :: h in s.turns && h !in s.done && s.now <= s.turns[h].at + duration ==> Reserved(s, h)
  }

  lemma RecoverySparesLive(cfg: Config, s: State, h: Id, now: Time, duration: Time)
    requires Legal(s.rows) && TurnsOnLedger(s) && h in s.turns && Reserved(s, h)
    requires now <= s.turns[h].at + duration && cfg.ttl as Time > duration
    ensures h !in ReleasedIds(Recovered(s.rows, cfg.ttl, now))
  {
    OpenIffUnreleased(s.rows, TurnRow(s.turns[h]));
    RecoveredMeans(cfg, s.rows, now);
    assert !IsStale(s.turns[h].at, cfg.ttl, now);
  }

  lemma TakeTurnSparesLive(cfg: Config, s: State, req: Request, duration: Time)
    requires Safe(cfg, s) && LiveTurnsReserved(s, duration) && Possible(s, TakeTurn(req))
    requires cfg.ttl as Time > duration
    ensures LiveTurnsReserved(Step(cfg, s, TakeTurn(req)), duration)
  {
    var t := Step(cfg, s, TakeTurn(req));
    if Authorize(cfg, s.rows, req).Granted? {
      GrantRefines(cfg, s.rows, req);
      RecoveredMeans(cfg, s.rows, req.at);
      var credited := Recovered(s.rows, cfg.ttl, req.at);
      ReleasedAppend(credited, TurnRow(t.turns[req.holdId]));
      LegalMeans(credited);
      forall h | h in t.turns && h !in t.done && t.now <= t.turns[h].at + duration ensures Reserved(t, h) {
        if h != req.holdId {
          RecoverySparesLive(cfg, s, h, req.at, duration);
        }
      }
    }
  }

  lemma CloseSparesLive(cfg: Config, s: State, e: Event, duration: Time)
    requires Safe(cfg, s) && LiveTurnsReserved(s, duration) && Possible(s, e) && !e.TakeTurn?
    requires Timely(s, e, duration)
    ensures LiveTurnsReserved(Step(cfg, s, e), duration)
  {
    match e {
      case Convert(hid, tokens, actor, at) =>
        var hold := s.turns[hid].hold;
        CloseReleases(s.rows, hold, actor, at);
        SpendReleasesNothing(CloseHold(s.rows, hold, actor, at), tokens, actor, at);
      case ReleaseTurn(hid, actor, at) =>
        CloseReleases(s.rows, s.turns[hid].hold, actor, at);
      case UnheldSpend(tokens, actor, at) =>
        SpendReleasesNothing(s.rows, tokens, actor, at);
    }
  }

  lemma CloseReleases(rows: seq<Row>, hold: DailyCapHold, actor: Option<Id>, now: Time)
    ensures ReleasedIds(CloseHold(rows, hold, actor, now)) <= ReleasedIds(rows) + {hold.hid}
  {
    ReleasedAppend(rows, Row(actor, -hold.tokens, now, Release(Some(hold.hid))));
  }

  lemma SpendReleasesNothing(rows: seq<Row>, tokens: int, actor: Option<Id>, now: Time)
    ensures ReleasedIds(rows + SpendRows(tokens, actor, now)) == ReleasedIds(rows)
  {
    if tokens > 0 {
      ReleasedAppend(rows, Row(actor, tokens, now, Spend));
    } else {
      assert rows + SpendRows(tokens, actor, now) == rows;
    }
  }

  lemma {:induction false} TimelyRunsKeepHolds(cfg: Config, events: seq<Event>, duration: Time)
    requires PossibleRun(cfg, events) && TimelyRun(cfg, events, duration)
    requires cfg.ttl as Time > duration
    ensures LiveTurnsReserved(Run(cfg, events), duration)
  {
    if events != [] {
      var prefix, e := events[..|events| - 1], events[|events| - 1];
      RunsAreSafe(cfg, prefix);
      TimelyRunsKeepHolds(cfg, prefix, duration);
      if e.TakeTurn? {
        TakeTurnSparesLive(cfg, Run(cfg, prefix), e.req, duration);
      } else {
        CloseSparesLive(cfg, Run(cfg, prefix), e, duration);
      }
    }
  }

  /** The startup check does its job. With settings it accepted, and turns that finish within the
      provider timeout plus the margin, no turn still inside that time ever loses its hold, nothing
      is ever spent late, and the cap is exceeded by overshoot and unheld spend alone. */
  lemma AcceptedSettingsProtectLiveTurns(cfg: Config, timeout: Time, events: seq<Event>)
    requires HoldTtlCoversTurn(cfg.ttl, timeout)
    requires PossibleRun(cfg, events) && TimelyRun(cfg, events, MaxTurnDuration(timeout))
    ensures var s := Run(cfg, events);
            && (forall h :: h in s.turns && h !in s.done && s.now <= s.turns[h].at + MaxTurnDuration(timeout) ==>
                  TurnRow(s.turns[h]) in Unmatched(s.rows))
            && s.late == 0
            && TokensToday(s.rows) <= cfg.cap + s.overshoot + s.unheld
  {
    TimelyRunsKeepHolds(cfg, events, MaxTurnDuration(timeout));
    CapSafety(cfg, events);
    RunsAreSafe(cfg, events);
    var s := Run(cfg, events);
    LegalOpen(s.rows);
    forall h | h in s.turns && Reserved(s, h) ensures TurnRow(s.turns[h]) in Unmatched(s.rows) {
      OpenIffUnreleased(s.rows, TurnRow(s.turns[h]));
    }
  }

  /** What one event adds to a seat beyond its holds, when no turn is late: the overshoot of its own
      turns, spend stamped to it from another seat's turn, and spend without a hold. */
  function BeyondHolds(s: State, e: Event, seat: Id): nat
    requires Possible(s, e)
  {
    match e
    case Convert(hid, tokens, actor, _) =>
      if actor != Some(seat) then 0
      else if s.turns[hid].actor == seat then Pricing.Overshoot(tokens, s.turns[hid].hold.clamp)
      else Max(tokens, 0)
    case UnheldSpend(tokens, actor, _) => if actor == Some(seat) then Max(tokens, 0) else 0
    case _ => 0
  }

  function SeatBeyondHolds(cfg: Config, events: seq<Event>, seat: Id): nat
    requires PossibleRun(cfg, events)
  {
    if events == [] then 0
    else
      var init := events[..|events| - 1];
      SeatBeyondHolds(cfg, init, seat) + BeyondHolds(Run(cfg, init), events[|events| - 1], seat)
  }

  lemma StepExcess(cfg: Config, s: State, e: Event, duration: Time, seat: Id)
    requires Possible(s, e) && Timely(s, e, duration) && LiveTurnsReserved(s, duration)
    ensures Excess(Step(cfg, s, e), seat) == Excess(s, seat) + BeyondHolds(s, e, seat)
  {
    if e.Convert? {
      assert Reserved(s, e.hid);
    }
  }

  lemma {:induction false} TimelyExcess(cfg: Config, events: seq<Event>, duration: Time, seat: Id)
    requires PossibleRun(cfg, events) && TimelyRun(cfg, events, duration)
    requires cfg.ttl as Time > duration
    ensures Excess(Run(cfg, events), seat) == SeatBeyondHolds(cfg, events, seat)
  {
    if events != [] {
      var init := events[..|events| - 1];
      TimelyExcess(cfg, init, duration, seat);
      TimelyRunsKeepHolds(cfg, init, duration);
      StepExcess(cfg, Run(cfg, init), events[|events| - 1], duration, seat);
    }
  }

  /** Under accepted settings and timely turns a seat that entered the day within its lifetime cap passes
      it only by the overshoot of its own turns and by spend that no hold of its own stood for. */
  lemma AcceptedSettingsProtectSeats(cfg: Config, timeout: Time, events: seq<Event>, seat: Id)
    requires HoldTtlCoversTurn(cfg.ttl, timeout)
    requires PossibleRun(cfg, events) && TimelyRun(cfg, events, MaxTurnDuration(timeout))
    requires seat in cfg.seatCaps && BilledBefore(cfg, seat) <= cfg.seatCaps[seat]
    ensures BilledBefore(cfg, seat) + SeatBilled(Run(cfg, events).rows, seat)
         <= cfg.seatCaps[seat] + SeatBeyondHolds(cfg, events, seat)
  {
    SeatSafety(cfg, events, seat);
    TimelyExcess(cfg, events, MaxTurnDuration(timeout), seat);
  }
}
