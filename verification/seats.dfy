/** Agent seats and session tokens: what each roster and token operation does to the stored rows.

    Every operation runs under the project's row lock, so each is one atomic step; a refused operation
    writes nothing. Signature checks are outside the model: a bearer is its decoded claims. */
module Seats {
  import opened Common

  datatype Role = Owner | Admin

  /** Who asks: a human or not, their account, and that account's role on the project. */
  datatype Acting = Acting(human: bool, account: Option<nat>, role: Option<Role>)

  datatype Status = Active | Suspended | Revoked

  datatype Caps = Caps(tokens: Option<nat>, usd: Option<nat>)

  datatype Seat = Seat(deployedBy: Option<nat>, responsible: Option<nat>, status: Status, caps: Caps)

  /** A seat belongs to one actor on one project. */
  datatype Key = Key(project: nat, actor: nat)

  datatype Token = Token(seat: Key, mintedBy: nat, hash: nat, expiresAt: int, revokedAt: Option<int>, lastUsedAt: Option<int>)

  datatype Bearer = Bearer(jti: nat, seat: Key, hash: nat)

  datatype Error = Unauthorized | Forbidden | NotFound | Conflict | Unprocessable | Unavailable

  datatype State = State(seats: map<Key, Seat>, tokens: map<nat, Token>, crew: map<nat, nat>)

  datatype TokenSettings = TokenSettings(hasSecret: bool, maxTtl: int)

  const DEFAULT_TTL := 2592000

  // ----- gates -----

  predicate CanManage(acting: Acting, requireOwner: bool) {
    && acting.human && acting.account.Some? && acting.role.Some?
    && (requireOwner ==> acting.role == Some(Owner))
  }

  // ----- seats -----

  predicate IsCrew(s: State, k: Key) {
    k.project in s.crew && s.crew[k.project] == k.actor
  }

  /** The project's crew actor, minting actor `newActor` if there is none, and its seat if missing. */
  function EnsureCrew(s: State, project: nat, owner: Option<nat>, newActor: nat): State {
    var actor := if project in s.crew then s.crew[project] else newActor;
    var key := Key(project, actor);
    s.(crew := s.crew[project := actor],
       seats := if key in s.seats then s.seats else s.seats[key := Seat(owner, owner, Active, Caps(None, None))])
  }

  function Deploy(s: State, project: nat, acting: Acting, owner: Option<nat>, reuse: bool, newActor: nat, caps: Caps)
    : (State, Result<Key, Error>)
  {
    if !CanManage(acting, false) then (s, Err(Forbidden))
    else if !reuse then
      var key := Key(project, newActor);
      (s.(seats := s.seats[key := Seat(acting.account, acting.account, Active, caps)]), Ok(key))
    else if project in s.crew && Key(project, s.crew[project]) in s.seats then (s, Err(Conflict))
    else
      var t := EnsureCrew(s, project, owner, newActor);
      var key := Key(project, t.crew[project]);
      (t.(seats := t.seats[key := t.seats[key].(deployedBy := acting.account, responsible := acting.account, caps := caps)]),
       Ok(key))
  }

  function Resume(s: State, key: Key, acting: Acting): (State, Result<Key, Error>) {
    if !CanManage(acting, true) then (s, Err(Forbidden))
    else if key !in s.seats then (s, Err(NotFound))
    else if s.seats[key].status != Suspended then (s, Err(Conflict))
    else (s.(seats := s.seats[key := s.seats[key].(status := Active, responsible := acting.account)]), Ok(key))
  }

  /** A cap edit touches only the caps that were sent. */
  datatype CapEdit = CapEdit(tokens: Option<Option<nat>>, usd: Option<Option<nat>>)

  function EditCaps(seat: Seat, edit: CapEdit): Seat {
    seat.(caps := Caps(if edit.tokens.Some? then edit.tokens.value else seat.caps.tokens,
                       if edit.usd.Some? then edit.usd.value else seat.caps.usd))
  }

  function Patch(s: State, key: Key, acting: Acting, status: Option<Status>, edit: CapEdit, now: int)
    : (State, Result<Key, Error>)
  {
    if status == Some(Active) then
      var (t, r) := Resume(s, key, acting);
      if r.Err? then (s, r) else (t.(seats := t.seats[key := EditCaps(t.seats[key], edit)]), r)
    else if !CanManage(acting, false) then (s, Err(Forbidden))
    else if key !in s.seats then (s, Err(NotFound))
    else if status.None? then (s.(seats := s.seats[key := EditCaps(s.seats[key], edit)]), Ok(key))
    else if s.seats[key].status == Revoked || s.seats[key].status == status.value then (s, Err(Conflict))
    else
      (s.(seats := s.seats[key := EditCaps(s.seats[key].(status := status.value), edit)],
          tokens := RevokeLive(s.tokens, key.project, {key.actor}, now)), Ok(key))
  }

  /** Stamp every live token of these actors on this project. */
  function RevokeLive(tokens: map<nat, Token>, project: nat, actors: set<nat>, now: int): map<nat, Token> {
    map j | j in tokens :: Stamp(tokens[j], project, actors, now)
  }

  function Stamp(t: Token, project: nat, actors: set<nat>, now: int): Token {
    if t.seat.project == project && t.seat.actor in actors && t.revokedAt.None? then t.(revokedAt := Some(now)) else t
  }

  /** The seats an ownership transfer reaches: the crew's and those the outgoing owner answers for. */
  predicate Reached(s: State, project: nat, outgoing: nat, key: Key) {
    key.project == project && (IsCrew(s, key) || (key in s.seats && s.seats[key].responsible == Some(outgoing)))
  }

  function ReachedActors(s: State, project: nat, outgoing: nat): set<nat> {
    (set k | k in s.seats && Reached(s, project, outgoing, k) :: k.actor)
    + (if project in s.crew then {s.crew[project]} else {})
  }

  lemma ReachedActorsMeans(s: State, project: nat, outgoing: nat)
    ensures forall a :: a in ReachedActors(s, project, outgoing) <==> Reached(s, project, outgoing, Key(project, a))
  {
    forall a | Reached(s, project, outgoing, Key(project, a)) ensures a in ReachedActors(s, project, outgoing) {
      assert Key(project, a) in s.seats || IsCrew(s, Key(project, a));
    }
  }

  function Pause(s: State, project: nat, outgoing: nat, key: Key): Seat
    requires key in s.seats
  {
    if Reached(s, project, outgoing, key) && s.seats[key].status == Active then s.seats[key].(status := Suspended)
    else s.seats[key]
  }

  function Transfer(s: State, project: nat, outgoing: nat, now: int): State {
    s.(seats := map k | k in s.seats :: Pause(s, project, outgoing, k),
       tokens := RevokeLive(s.tokens, project, ReachedActors(s, project, outgoing), now))
  }

  // ----- tokens -----

  function ClampTtl(ttl: Option<int>, maxTtl: int): (r: Result<int, Error>)
    ensures r == Err(Unavailable) <==> maxTtl < 1
    ensures r == Err(Unprocessable) <==> maxTtl >= 1 && ttl.Some? && !(1 <= ttl.value <= maxTtl)
    ensures r.Ok? ==> 1 <= r.value <= maxTtl && r.value == if ttl.Some? then ttl.value else Min(DEFAULT_TTL, maxTtl)
  {
    if maxTtl < 1 then Err(Unavailable)
    else
      var requested := if ttl.None? then Min(DEFAULT_TTL, maxTtl) else ttl.value;
      if requested < 1 || requested > maxTtl then Err(Unprocessable) else Ok(requested)
  }

  function Mint(s: State, key: Key, acting: Acting, ttl: Option<int>, cfg: TokenSettings, jti: nat, hash: nat, now: int)
    : (State, Result<nat, Error>)
  {
    if !cfg.hasSecret then (s, Err(Unavailable))
    else if !CanManage(acting, true) then (s, Err(Forbidden))
    else if key !in s.seats then (s, Err(NotFound))
    else if s.seats[key].status != Active then (s, Err(Forbidden))
    else
      var clamped := ClampTtl(ttl, cfg.maxTtl);
      if clamped.Err? then (s, Err(clamped.error))
      else
        (s.(tokens := s.tokens[jti := Token(key, acting.account.value, hash, now + clamped.value, None, None)]), Ok(jti))
  }

  /** Revoke one token and mint its replacement; if minting is refused, nothing is written. */
  function Rotate(s: State, key: Key, previous: nat, acting: Acting, ttl: Option<int>, cfg: TokenSettings,
                  jti: nat, hash: nat, now: int)
    : (State, Result<nat, Error>)
  {
    if !CanManage(acting, true) then (s, Err(Forbidden))
    else if previous !in s.tokens || s.tokens[previous].seat != key then (s, Err(NotFound))
    else if s.tokens[previous].revokedAt.Some? then (s, Err(Conflict))
    else
      var (t, r) := Mint(s.(tokens := s.tokens[previous := s.tokens[previous].(revokedAt := Some(now))]),
                         key, acting, ttl, cfg, jti, hash, now);
      if r.Err? then (s, r) else (t, r)
  }

  function RevokeToken(s: State, key: Key, jti: nat, acting: Acting, now: int): (State, Result<nat, Error>) {
    if !CanManage(acting, true) then (s, Err(Forbidden))
    else if jti !in s.tokens || s.tokens[jti].seat != key then (s, Err(NotFound))
    else if s.tokens[jti].revokedAt.Some? then (s, Ok(jti))
    else (s.(tokens := s.tokens[jti := s.tokens[jti].(revokedAt := Some(now))]), Ok(jti))
  }

  /** Admit a bearer as its agent, stamping its last use. */
  function Resolve(s: State, b: Bearer, now: int): (State, Result<nat, Error>) {
    if b.jti !in s.tokens then (s, Err(Unauthorized))
    else
      var row := s.tokens[b.jti];
      if row.hash != b.hash || row.seat != b.seat || row.revokedAt.Some? || row.expiresAt <= now then (s, Err(Unauthorized))
      else if row.seat !in s.seats || s.seats[row.seat].status != Active then (s, Err(Forbidden))
      else (s.(tokens := s.tokens[b.jti := row.(lastUsedAt := Some(now))]), Ok(row.seat.actor))
  }

  // ----- runs -----

  datatype Op =
    | EnsureCrewOp(project: nat, owner: Option<nat>, newActor: nat)
    | DeployOp(project: nat, acting: Acting, owner: Option<nat>, reuse: bool, newActor: nat, newCaps: Caps)
    | ResumeOp(key: Key, acting: Acting)
    | PatchOp(key: Key, acting: Acting, status: Option<Status>, edit: CapEdit, now: int)
    | TransferOp(project: nat, outgoing: nat, now: int)
    | MintOp(key: Key, acting: Acting, ttl: Option<int>, cfg: TokenSettings, jti: nat, hash: nat, now: int)
    | RotateOp(key: Key, previous: nat, acting: Acting, ttl: Option<int>, cfg: TokenSettings, jti: nat, hash: nat, now: int)
    | RevokeOp(key: Key, jti: nat, acting: Acting, now: int)
    | ResolveOp(bearer: Bearer, now: int)

  /** New actors and token ids are fresh. */
  predicate Possible(s: State, op: Op) {
    match op
    case EnsureCrewOp(project, _, newActor) => Key(project, newActor) !in s.seats
    case DeployOp(project, _, _, _, newActor, _) => Key(project, newActor) !in s.seats
    case MintOp(_, _, _, _, jti, _, _) => jti !in s.tokens
    case RotateOp(_, _, _, _, _, jti, _, _) => jti !in s.tokens
    case _ => true
  }

  function Apply(s: State, op: Op): State {
    match op
    case EnsureCrewOp(project, owner, newActor) => EnsureCrew(s, project, owner, newActor)
    case DeployOp(project, acting, owner, reuse, newActor, caps) => Deploy(s, project, acting, owner, reuse, newActor, caps).0
    case ResumeOp(key, acting) => Resume(s, key, acting).0
    case PatchOp(key, acting, status, edit, now) => Patch(s, key, acting, status, edit, now).0
    case TransferOp(project, outgoing, now) => Transfer(s, project, outgoing, now)
    case MintOp(key, acting, ttl, cfg, jti, hash, now) => Mint(s, key, acting, ttl, cfg, jti, hash, now).0
    case RotateOp(key, previous, acting, ttl, cfg, jti, hash, now) =>
      Rotate(s, key, previous, acting, ttl, cfg, jti, hash, now).0
    case RevokeOp(key, jti, acting, now) => RevokeToken(s, key, jti, acting, now).0
    case ResolveOp(bearer, now) => Resolve(s, bearer, now).0
  }

  predicate AllPossible(s: State, ops: seq<Op>)
    decreases |ops|
  {
    ops != [] ==> Possible(s, ops[0]) && AllPossible(Apply(s, ops[0]), ops[1..])
  }

  function After(s: State, ops: seq<Op>): State
    decreases |ops|
  {
    if ops == [] then s else After(Apply(s, ops[0]), ops[1..])
  }

  // ----- safety -----

  predicate SeatActive(s: State, key: Key) {
    key in s.seats && s.seats[key].status == Active
  }

  predicate Live(s: State, jti: nat) {
    jti in s.tokens && s.tokens[jti].revokedAt.None?
  }

  /** An unrevoked token always has an active seat. */
  ghost predicate Good(s: State) {
    forall j :: Live(s, j) ==> SeatActive(s, s.tokens[j].seat)
  }

  /** A row keeps its identity; a revocation is never undone or restamped. */
  predicate SameToken(was: Token, now: Token) {
    && was.seat == now.seat && was.mintedBy == now.mintedBy && was.hash == now.hash && was.expiresAt == now.expiresAt
    && (was.revokedAt.Some? ==> now.revokedAt == was.revokedAt)
  }

  /** No seat is removed or un-revoked, and who deployed it is never rewritten. */
  predicate SameSeat(was: Seat, now: Seat) {
    now.deployedBy == was.deployedBy && (was.status == Revoked ==> now.status == Revoked)
  }

  /** Every token and seat persists, as the row it was. */
  predicate Onward(s: State, t: State) {
    && (forall j :: j in s.tokens ==> j in t.tokens && SameToken(s.tokens[j], t.tokens[j]))
    && (forall k :: k in s.seats ==> k in t.seats && SameSeat(s.seats[k], t.seats[k]))
  }

  /** Deploying and ensuring the crew only add seats. */
  predicate AddsSeats(s: State, t: State) {
    t.tokens == s.tokens && forall k :: k in s.seats ==> k in t.seats && t.seats[k] == s.seats[k]
  }

  lemma DeployAdds(s: State, op: Op)
    requires (op.EnsureCrewOp? || op.DeployOp?) && Possible(s, op)
    ensures AddsSeats(s, Apply(s, op))
  {
  }

  lemma AddingIsSafe(s: State, t: State)
    requires Good(s) && AddsSeats(s, t)
    ensures Good(t) && Onward(s, t)
  {
    forall j | Live(t, j) ensures SeatActive(t, t.tokens[j].seat) {
      assert Live(s, j);
    }
  }

  /** Seat edits keep every seat; one that ends inactive has no live token left, and no token changes
      beyond being revoked. */
  ghost predicate Retires(s: State, t: State) {
    && t.seats.Keys == s.seats.Keys && t.tokens.Keys == s.tokens.Keys
    && (forall k :: k in s.seats ==> SameSeat(s.seats[k], t.seats[k]))
    && (forall j :: j in s.tokens ==> SameToken(s.tokens[j], t.tokens[j]))
    && (forall j :: Live(t, j) && SeatActive(s, s.tokens[j].seat) ==> SeatActive(t, s.tokens[j].seat))
  }

  lemma RetiringIsSafe(s: State, t: State)
    requires Good(s) && Retires(s, t)
    ensures Good(t) && Onward(s, t)
  {
    forall j | Live(t, j) ensures SeatActive(t, t.tokens[j].seat) {
      assert SameToken(s.tokens[j], t.tokens[j]);
      assert Live(s, j);
    }
  }

  lemma PatchRetires(s: State, key: Key, acting: Acting, status: Option<Status>, edit: CapEdit, now: int)
    ensures Retires(s, Patch(s, key, acting, status, edit, now).0)
  {
  }

  lemma TransferRetires(s: State, project: nat, outgoing: nat, now: int)
    ensures Retires(s, Transfer(s, project, outgoing, now))
  {
    var t := Transfer(s, project, outgoing, now);
    forall j | Live(t, j) && SeatActive(s, s.tokens[j].seat) ensures SeatActive(t, s.tokens[j].seat) {
      var k := s.tokens[j].seat;
      assert k.project == project ==> k.actor !in ReachedActors(s, project, outgoing);
    }
  }

  /** A transfer leaves every other seat, and that seat's tokens, exactly as they were. */
  lemma TransferSparesOthers(s: State, project: nat, outgoing: nat, now: int, key: Key)
    requires key in s.seats && !Reached(s, project, outgoing, key)
    ensures var t := Transfer(s, project, outgoing, now);
            && t.seats[key] == s.seats[key]
            && forall j :: j in s.tokens && s.tokens[j].seat == key ==> t.tokens[j] == s.tokens[j]
  {
    ReachedActorsMeans(s, project, outgoing);
    assert key == Key(key.project, key.actor);
  }

  lemma ResumeRetires(s: State, key: Key, acting: Acting)
    ensures Retires(s, Resume(s, key, acting).0)
  {
  }

  /** Token steps leave the seats alone; a new live token is on an active seat. */
  ghost predicate IssuesTokens(s: State, t: State) {
    && t.seats == s.seats
    && (forall j :: j in s.tokens ==> j in t.tokens && SameToken(s.tokens[j], t.tokens[j]))
    && (forall j :: Live(t, j) ==> Live(s, j) || SeatActive(s, t.tokens[j].seat))
  }

  lemma IssuingIsSafe(s: State, t: State)
    requires Good(s) && IssuesTokens(s, t)
    ensures Good(t) && Onward(s, t)
  {
  }

  lemma TokenStepIssues(s: State, op: Op)
    requires (op.MintOp? || op.RotateOp? || op.RevokeOp? || op.ResolveOp?) && Possible(s, op)
    ensures IssuesTokens(s, Apply(s, op))
  {
  }

  lemma StepIsSafe(s: State, op: Op)
    requires Good(s) && Possible(s, op)
    ensures Good(Apply(s, op)) && Onward(s, Apply(s, op))
  {
    if op.EnsureCrewOp? || op.DeployOp? {
      DeployAdds(s, op);
      AddingIsSafe(s, Apply(s, op));
    } else if op.ResumeOp? {
      ResumeRetires(s, op.key, op.acting);
      RetiringIsSafe(s, Apply(s, op));
    } else if op.PatchOp? {
      PatchRetires(s, op.key, op.acting, op.status, op.edit, op.now);
      RetiringIsSafe(s, Apply(s, op));
    } else if op.TransferOp? {
      TransferRetires(s, op.project, op.outgoing, op.now);
      RetiringIsSafe(s, Apply(s, op));
    } else {
      TokenStepIssues(s, op);
      IssuingIsSafe(s, Apply(s, op));
    }
  }

  lemma OnwardChains(a: State, b: State, c: State)
    requires Onward(a, b) && Onward(b, c)
    ensures Onward(a, c)
  {
    forall j | j in a.tokens ensures j in c.tokens && SameToken(a.tokens[j], c.tokens[j]) {
      assert SameToken(a.tokens[j], b.tokens[j]) && SameToken(b.tokens[j], c.tokens[j]);
    }
    forall k | k in a.seats ensures k in c.seats && SameSeat(a.seats[k], c.seats[k]) {
      assert SameSeat(a.seats[k], b.seats[k]) && SameSeat(b.seats[k], c.seats[k]);
    }
  }

  /** Over every run: an unrevoked token has an active seat, REVOKED is terminal, a revoked token stays
      revoked, and a seat's deployer is never rewritten. */
  lemma {:induction false} RunsAreSafe(s: State, ops: seq<Op>)
    requires Good(s) && AllPossible(s, ops)
    ensures Good(After(s, ops)) && Onward(s, After(s, ops))
    decreases |ops|
  {
    if ops != [] {
      StepIsSafe(s, ops[0]);
      RunsAreSafe(Apply(s, ops[0]), ops[1..]);
      OnwardChains(s, Apply(s, ops[0]), After(s, ops));
    }
  }

  /** Once a token's seat has been anything but active, even for a moment, no bearer of that token is
      admitted again, whatever happens to the seat later. */
  lemma NeverResolvesAgain(s: State, ops: seq<Op>, b: Bearer, now: int)
    requires Good(s) && AllPossible(s, ops)
    requires b.jti in s.tokens && !SeatActive(s, s.tokens[b.jti].seat)
    ensures Resolve(After(s, ops), b, now) == (After(s, ops), Err(Unauthorized))
  {
    RunsAreSafe(s, ops);
    assert !Live(s, b.jti);
    assert SameToken(s.tokens[b.jti], After(s, ops).tokens[b.jti]);
  }

  /** Suspending or revoking a seat, or transferring ownership away from it, is such a moment for every
      token it has at that time. */
  lemma DeactivationKillsTokens(s: State, op: Op, ops: seq<Op>, b: Bearer, now: int)
    requires Good(s) && Possible(s, op) && AllPossible(Apply(s, op), ops)
    requires b.jti in s.tokens && Deactivates(s, op, s.tokens[b.jti].seat)
    ensures Resolve(After(Apply(s, op), ops), b, now).1 == Err(Unauthorized)
  {
    StepIsSafe(s, op);
    DeactivatedIsInactive(s, op, s.tokens[b.jti].seat);
    assert SameToken(s.tokens[b.jti], Apply(s, op).tokens[b.jti]);
    NeverResolvesAgain(Apply(s, op), ops, b, now);
  }

  /** The accepted operations that take a seat out of service. */
  predicate Deactivates(s: State, op: Op, key: Key) {
    || (op.PatchOp? && op.key == key && (op.status == Some(Suspended) || op.status == Some(Revoked))
        && Patch(s, key, op.acting, op.status, op.edit, op.now).1.Ok?)
    || (op.TransferOp? && Reached(s, op.project, op.outgoing, key))
  }

  lemma DeactivatedIsInactive(s: State, op: Op, key: Key)
    requires Deactivates(s, op, key)
    ensures !SeatActive(Apply(s, op), key)
  {
  }

  /** A bearer is admitted exactly when its row matches, is unrevoked and has not expired; the seat
      check can then no longer fail. */
  lemma AdmittedExactly(s: State, b: Bearer, now: int)
    requires Good(s)
    ensures Resolve(s, b, now).1.Ok? <==>
              Live(s, b.jti) && s.tokens[b.jti].seat == b.seat && s.tokens[b.jti].hash == b.hash && now < s.tokens[b.jti].expiresAt
    ensures Resolve(s, b, now).1 != Err(Forbidden)
  {
    assert Live(s, b.jti) ==> SeatActive(s, s.tokens[b.jti].seat);
  }

  /** A minted token is admitted at once and refused from its expiry on, which is at most the configured
      maximum away. */
  lemma MintedIsAdmitted(s: State, key: Key, acting: Acting, ttl: Option<int>, cfg: TokenSettings, jti: nat, hash: nat,
                         now: int, later: int)
    requires Good(s) && Mint(s, key, acting, ttl, cfg, jti, hash, now).1.Ok?
    ensures var t := Mint(s, key, acting, ttl, cfg, jti, hash, now).0;
            && Resolve(t, Bearer(jti, key, hash), now).1 == Ok(key.actor)
            && (later >= now + cfg.maxTtl ==> Resolve(t, Bearer(jti, key, hash), later).1 == Err(Unauthorized))
  {
  }
}
