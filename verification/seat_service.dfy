/** The roster and token services: mutable rows, each operation proved to do what its specification
    function in `Seats` says. */
module SeatService {
  import opened Common
  import opened Seats

  /** A reached seat the transfer loop has already been through. */
  predicate Handled(s: State, project: nat, outgoing: nat, todo: set<Key>, key: Key) {
    key in s.seats && key !in todo && Reached(s, project, outgoing, key)
  }

  class Roster {
    var seats: map<Key, Seat>
    var tokens: map<nat, Token>
    var crew: map<nat, nat>

    function Current(): State
      reads this
    {
      State(seats, tokens, crew)
    }

    constructor ()
      ensures Current() == State(map[], map[], map[])
    {
      seats, tokens, crew := map[], map[], map[];
    }

    /** Stamp the live tokens of these actors, one row at a time. */
    method RevokeLiveTokensForActors(project: nat, actors: set<nat>, now: int)
      modifies `tokens
      ensures tokens == RevokeLive(old(tokens), project, actors, now)
    {
      var todo := tokens.Keys;
      while todo != {}
        invariant todo <= tokens.Keys == old(tokens).Keys
        invariant forall j :: j in tokens ==>
                    tokens[j] == if j in todo then old(tokens)[j] else Stamp(old(tokens)[j], project, actors, now)
        decreases |todo|
      {
        var j := Pick(todo);
        todo := todo - {j};
        var row := tokens[j];
        if row.seat.project == project && row.seat.actor in actors && row.revokedAt.None? {
          tokens := tokens[j := row.(revokedAt := Some(now))];
        }
      }
    }

    /** Suspend the active seats a transfer reaches; report every reached seat's actor. */
    method PauseReached(project: nat, outgoing: nat) returns (reached: set<nat>)
      modifies `seats
      ensures seats == map k | k in old(seats) :: Pause(old(Current()), project, outgoing, k)
      ensures forall a :: a in reached <==> Handled(old(Current()), project, outgoing, {}, Key(project, a))
    {
      ghost var before := Current();
      var todo := seats.Keys;
      reached := {};
      while todo != {}
        invariant todo <= seats.Keys == before.seats.Keys
        invariant forall k :: k in seats ==>
                    seats[k] == if k in todo then before.seats[k] else Pause(before, project, outgoing, k)
        invariant forall a :: a in reached <==> Handled(before, project, outgoing, todo, Key(project, a))
        decreases |todo|
      {
        var k := Pick(todo);
        todo := todo - {k};
        var isCrew := k.project in crew && crew[k.project] == k.actor;
        if k.project == project && (isCrew || seats[k].responsible == Some(outgoing)) {
          reached := reached + {k.actor};
          if seats[k].status == Active {
            seats := seats[k := seats[k].(status := Suspended)];
          }
        }
      }
    }

    /** Suspend what an ownership transfer reaches and revoke its tokens, the crew's even without a seat. */
    method SuspendAgentsOnOwnerTransfer(project: nat, outgoing: nat, now: int)
      modifies this
      ensures Current() == Transfer(old(Current()), project, outgoing, now)
    {
      ghost var before := Current();
      var toRevoke := PauseReached(project, outgoing);
      if project in crew {
        toRevoke := toRevoke + {crew[project]};
      }
      ReachedActorsMeans(before, project, outgoing);
      assert forall a :: a in toRevoke <==> Reached(before, project, outgoing, Key(project, a));
      assert toRevoke == ReachedActors(before, project, outgoing);
      RevokeLiveTokensForActors(project, toRevoke, now);
    }

    method GetOrCreateProjectAgentActor(project: nat, owner: Option<nat>, newActor: nat) returns (actor: nat)
      modifies this
      ensures Current() == EnsureCrew(old(Current()), project, owner, newActor)
      ensures project in crew && actor == crew[project] && Key(project, actor) in seats
    {
      actor := if project in crew then crew[project] else newActor;
      crew := crew[project := actor];
      if Key(project, actor) !in seats {
        seats := seats[Key(project, actor) := Seat(owner, owner, Active, Caps(None, None))];
      }
    }

    method DeployProjectAgent(project: nat, acting: Acting, owner: Option<nat>, reuse: bool, newActor: nat, caps: Caps)
      returns (r: Result<Key, Error>)
      modifies this
      ensures (Current(), r) == Deploy(old(Current()), project, acting, owner, reuse, newActor, caps)
    {
      if !CanManage(acting, false) {
        return Err(Forbidden);
      }
      if !reuse {
        var key := Key(project, newActor);
        seats := seats[key := Seat(acting.account, acting.account, Active, caps)];
        return Ok(key);
      }
      if project in crew && Key(project, crew[project]) in seats {
        return Err(Conflict);
      }
      var actor := GetOrCreateProjectAgentActor(project, owner, newActor);
      var key := Key(project, actor);
      seats := seats[key := seats[key].(deployedBy := acting.account, responsible := acting.account, caps := caps)];
      return Ok(key);
    }

    method ResumeProjectAgent(key: Key, acting: Acting) returns (r: Result<Key, Error>)
      modifies `seats
      ensures (Current(), r) == Resume(old(Current()), key, acting)
    {
      if !CanManage(acting, true) {
        return Err(Forbidden);
      }
      if key !in seats {
        return Err(NotFound);
      }
      if seats[key].status != Suspended {
        return Err(Conflict);
      }
      seats := seats[key := seats[key].(status := Active, responsible := acting.account)];
      return Ok(key);
    }

    method PatchProjectAgent(key: Key, acting: Acting, status: Option<Status>, edit: CapEdit, now: int)
      returns (r: Result<Key, Error>)
      modifies this
      ensures (Current(), r) == Patch(old(Current()), key, acting, status, edit, now)
    {
      if status == Some(Active) {
        r := ResumeProjectAgent(key, acting);
        if r.Ok? {
          seats := seats[key := EditCaps(seats[key], edit)];
        }
        return;
      }
      if !CanManage(acting, false) {
        return Err(Forbidden);
      }
      if key !in seats {
        return Err(NotFound);
      }
      if status.None? {
        seats := seats[key := EditCaps(seats[key], edit)];
        return Ok(key);
      }
      if seats[key].status == Revoked || seats[key].status == status.value {
        return Err(Conflict);
      }
      seats := seats[key := EditCaps(seats[key].(status := status.value), edit)];
      RevokeLiveTokensForActors(key.project, {key.actor}, now);
      return Ok(key);
    }

    method MintAgentSessionToken(key: Key, acting: Acting, ttl: Option<int>, cfg: TokenSettings, jti: nat, hash: nat, now: int)
      returns (r: Result<nat, Error>)
      modifies `tokens
      ensures (Current(), r) == Mint(old(Current()), key, acting, ttl, cfg, jti, hash, now)
    {
      if !cfg.hasSecret {
        return Err(Unavailable);
      }
      if !CanManage(acting, true) {
        return Err(Forbidden);
      }
      if key !in seats {
        return Err(NotFound);
      }
      if seats[key].status != Active {
        return Err(Forbidden);
      }
      var clamped := ClampTtl(ttl, cfg.maxTtl);
      if clamped.Err? {
        return Err(clamped.error);
      }
      tokens := tokens[jti := Token(key, acting.account.value, hash, now + clamped.value, None, None)];
      return Ok(jti);
    }

    method RotateAgentSessionToken(key: Key, previous: nat, acting: Acting, ttl: Option<int>, cfg: TokenSettings,
                                   jti: nat, hash: nat, now: int) returns (r: Result<nat, Error>)
      modifies `tokens
      ensures (Current(), r) == Rotate(old(Current()), key, previous, acting, ttl, cfg, jti, hash, now)
    {
      if !CanManage(acting, true) {
        return Err(Forbidden);
      }
      if previous !in tokens || tokens[previous].seat != key {
        return Err(NotFound);
      }
      if tokens[previous].revokedAt.Some? {
        return Err(Conflict);
      }
      var before := tokens;
      tokens := tokens[previous := tokens[previous].(revokedAt := Some(now))];
      r := MintAgentSessionToken(key, acting, ttl, cfg, jti, hash, now);
      if r.Err? {
        // The refusal aborts the transaction the revocation is part of.
        tokens := before;
      }
    }

    method RevokeAgentSessionToken(key: Key, jti: nat, acting: Acting, now: int) returns (r: Result<nat, Error>)
      modifies `tokens
      ensures (Current(), r) == RevokeToken(old(Current()), key, jti, acting, now)
    {
      if !CanManage(acting, true) {
        return Err(Forbidden);
      }
      if jti !in tokens || tokens[jti].seat != key {
        return Err(NotFound);
      }
      if tokens[jti].revokedAt.None? {
        tokens := tokens[jti := tokens[jti].(revokedAt := Some(now))];
      }
      return Ok(jti);
    }

    method ResolveAgentSessionToken(b: Bearer, now: int) returns (r: Result<nat, Error>)
      modifies `tokens
      ensures (Current(), r) == Resolve(old(Current()), b, now)
    {
      if b.jti !in tokens {
        return Err(Unauthorized);
      }
      var row := tokens[b.jti];
      if row.hash != b.hash || row.seat != b.seat || row.revokedAt.Some? || row.expiresAt <= now {
        return Err(Unauthorized);
      }
      if row.seat !in seats || seats[row.seat].status != Active {
        return Err(Forbidden);
      }
      tokens := tokens[b.jti := row.(lastUsedAt := Some(now))];
      return Ok(row.seat.actor);
    }
  }
}
