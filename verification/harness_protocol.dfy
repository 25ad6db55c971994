/** What one authorize, convert or release writes on a project's harness rows, as functions of the
    rows: the specification the session's methods are proved against. */
module HarnessProtocol {
  import opened Common
  import opened HarnessMeter
  import Pricing

  /** Settings of one deployment: one daily cap, one hold TTL, one floor, the seats' lifetime
      token caps and what each seat had already been billed before this day's harness rows. */
  datatype Config = Config(cap: nat, ttl: int, floor: nat, seatCaps: map<Id, nat>, billedBefore: map<Id, nat>)

  datatype Reason =
    | Composition | TurnBudget | ActorRequired | NotMember | CredentialDivergence
    | DailyCapExhausted | ProjectBudget | AgentUsdCap | AgentTokenCap | TurnRoom

  /** The hold a granted turn carries until it converts or releases it. */
  datatype DailyCapHold = DailyCapHold(tokens: int, hid: Id, clamp: nat, potRoom: Option<nat>, priceKnown: bool)

  /** One authorize call. `gate` is the first refusal among the checks made before the project row
      is locked, `funded` / `available` / `usdRemaining` what the other ledgers answer, and
      `holdId` the freshly drawn id. */
  datatype Request = Request(at: Time, gate: Option<Reason>, actor: Id, holdId: Id, projectExists: bool,
                             funded: int, available: int, usdRemaining: Option<int>, quote: Option<Pricing.Quote>)

  datatype Outcome = Refused(reason: Reason) | NoProject | Granted(hold: DailyCapHold)

  // ----- stale recovery -----

  function ReleaseOf(hold: Row, actor: Option<Id>, now: Time): Row {
    Row(actor, -hold.tokens, now, if hold.kind.Hold? then Release(hold.kind.hid) else Release(None))
  }

  /** One release credit per stale hold, in order. */
  function StaleReleases(open: seq<Row>, ttl: int, now: Time): seq<Row> {
    if open == [] then []
    else
      var last := open[|open| - 1];
      if IsStale(last.at, ttl, now)
      then StaleReleases(open[..|open| - 1], ttl, now) + [ReleaseOf(last, last.actor, now)]
      else StaleReleases(open[..|open| - 1], ttl, now)
  }

  function Recovered(rows: seq<Row>, ttl: int, now: Time): seq<Row> {
    rows + StaleReleases(Unmatched(rows), ttl, now)
  }

  // ----- a seat's room -----

  /** Tokens billed to a seat: its spend rows, holds and releases excluded. */
  function SeatBilled(rows: seq<Row>, seat: Id): int {
    if rows == [] then 0
    else
      var last := rows[|rows| - 1];
      SeatBilled(rows[..|rows| - 1], seat)
      + if last.kind.Spend? && last.actor == Some(seat) && last.tokens > 0 then last.tokens else 0
  }

  /** Tokens a seat still holds among the open rows. */
  function SeatHeld(open: seq<Row>, seat: Id): int {
    if open == [] then 0
    else
      var last := open[|open| - 1];
      SeatHeld(open[..|open| - 1], seat) + if last.actor == Some(seat) then Max(0, last.tokens) else 0
  }

  function BilledBefore(cfg: Config, seat: Id): nat {
    if seat in cfg.billedBefore then cfg.billedBefore[seat] else 0
  }

  function TokenRemaining(cap: Option<nat>, billed: int, held: int): Option<nat> {
    if cap.Some? then Some(Max(0, cap.value - billed - held)) else None
  }

  function SeatCap(cfg: Config, seat: Id): Option<nat> {
    if seat in cfg.seatCaps then Some(cfg.seatCaps[seat]) else None
  }

  function SeatRemaining(cfg: Config, rows: seq<Row>, seat: Id): Option<nat> {
    TokenRemaining(SeatCap(cfg, seat), BilledBefore(cfg, seat) + SeatBilled(rows, seat),
                   SeatHeld(Unmatched(rows), seat))
  }

  /** A reached cap refuses, dollars first. */
  function CapRefusal(tokens: Option<nat>, usd: Option<int>): Option<Reason> {
    if usd.Some? && usd.value <= 0 then Some(AgentUsdCap)
    else if tokens.Some? && tokens.value <= 0 then Some(AgentTokenCap)
    else None
  }

  function AgentRoom(tokens: Option<nat>, usd: Option<int>, rate: Option<int>): Option<nat> {
    var usdTokens := if usd.Some? && rate.Some? then Pricing.PotTokens(usd.value, rate.value) else None;
    if tokens.None? then usdTokens
    else if usdTokens.None? then tokens
    else Some(Min(tokens.value, usdTokens.value))
  }

  // ----- authorize -----

  /** The turn-budget check comes after the composition check and before every other gate. */
  function Gated(turnIndex: nat, maxTurns: nat, req: Request): Request {
    if req.gate == Some(Composition) || turnIndex < maxTurns then req else req.(gate := Some(TurnBudget))
  }

  function KnownRate(req: Request): Option<int> {
    if req.quote.Some? && Pricing.PriceIsKnown(req.quote.value.source)
    then Some(Pricing.ClampRate(req.quote.value)) else None
  }

  function PotRoom(req: Request): Option<nat> {
    if KnownRate(req).Some? && req.funded > 0 then Pricing.PotTokens(req.available, KnownRate(req).value) else None
  }

  function Clamp(cfg: Config, used: int, remaining: Option<nat>, req: Request): nat {
    Pricing.TurnClamp(cfg.cap - used, PotRoom(req), AgentRoom(remaining, req.usdRemaining, KnownRate(req)))
  }

  /** The decision under the lock, from today's sum and the seat's remaining tokens. */
  function Decide(cfg: Config, used: int, remaining: Option<nat>, req: Request): Outcome {
    if used < 0 || used >= cfg.cap then Refused(DailyCapExhausted)
    else if req.funded > 0 && req.available <= 0 then Refused(ProjectBudget)
    else if CapRefusal(remaining, req.usdRemaining).Some? then
      Refused(CapRefusal(remaining, req.usdRemaining).value)
    else if !req.projectExists then NoProject
    else if Clamp(cfg, used, remaining, req) < cfg.floor then Refused(TurnRoom)
    else Granted(DailyCapHold(cfg.cap - used, req.holdId, Clamp(cfg, used, remaining, req),
                              PotRoom(req), KnownRate(req).Some?))
  }

  function Authorize(cfg: Config, rows: seq<Row>, req: Request): Outcome {
    var credited := Recovered(rows, cfg.ttl, req.at);
    if req.gate.Some? then Refused(req.gate.value)
    else Decide(cfg, TokensToday(credited), SeatRemaining(cfg, credited, req.actor), req)
  }

  function HoldRow(hold: DailyCapHold, actor: Id, at: Time): Row {
    Row(Some(actor), hold.tokens, at, Hold(Some(hold.hid)))
  }

  /** Recovery and the new hold commit together; any other outcome leaves the rows as they were. */
  function AuthorizeRows(cfg: Config, rows: seq<Row>, req: Request): seq<Row> {
    match Authorize(cfg, rows, req)
    case Granted(hold) => Recovered(rows, cfg.ttl, req.at) + [HoldRow(hold, req.actor, req.at)]
    case _ => rows
  }

  // ----- convert and release -----

  function CloseHold(rows: seq<Row>, hold: DailyCapHold, actor: Option<Id>, now: Time): seq<Row> {
    if hold.tokens > 0 && hold.hid !in ReleasedIds(rows)
    then rows + [Row(actor, -hold.tokens, now, Release(Some(hold.hid)))] else rows
  }

  function SpendRows(tokens: int, actor: Option<Id>, now: Time): seq<Row> {
    if tokens > 0 then [Row(actor, tokens, now, Spend)] else []
  }

  function ConvertRows(rows: seq<Row>, hold: Option<DailyCapHold>, tokens: int, actor: Option<Id>, now: Time): seq<Row> {
    (if hold.Some? then CloseHold(rows, hold.value, actor, now) else rows) + SpendRows(tokens, actor, now)
  }
}
