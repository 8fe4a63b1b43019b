/** The four use cases over one repository, as their callers see them. */
module AuthUseCases {
  import opened Collections
  import opened RefreshTokens
  import opened TokenFamilies
  import opened TokenRevocation

  class AuthService {
    var tokens: seq<Token>
    var nextFamily: FamilyId
    const config: Config

    function View(): Store
      reads this
    {
      Store(tokens, nextFamily)
    }

    ghost predicate Valid()
      reads this
    {
      Families(View())
    }

    constructor (config: Config)
      ensures Valid() && View() == Store([], 0) && this.config == config
    {
      tokens := [];
      nextFamily := 0;
      this.config := config;
      new;
      EmptyStore();
    }

    /** A new family with one token, which rotates when it is presented within its lifetime and is refused after it. */
    method LoginUser(user: UserId, device: string, now: int) returns (raw: TokenId)
      requires Valid()
      modifies this
      ensures Valid() && View() == Login(old(View()), user, device, now, config)
      ensures |tokens| == raw + 1 && tokens[..raw] == old(tokens)
      ensures forall i :: 0 <= i < raw ==> tokens[i].family != tokens[raw].family
      ensures forall presenter, later: int :: Refresh(View(), raw, presenter, later, config).1 ==
                if later < now + config.ttlSeconds then Rotated(user, raw + 1) else Invalid
    {
      ApplyKeepsFamilies(View(), LoginOp(user, device, now), config);
      raw := |tokens|;
      tokens := Create(tokens, user, nextFamily, device, now + config.ttlSeconds);
      nextFamily := nextFamily + 1;
    }

    /** Access with a new token, the old one used up; or access and no change; or no access, and after a reuse the
        whole family is revoked. */
    method RefreshSession(raw: TokenId, device: string, now: int) returns (outcome: Outcome)
      requires Valid()
      modifies this
      ensures Valid() && (View(), outcome) == Refresh(old(View()), raw, device, now, config)
      ensures match outcome
              case Rotated(user, successor) =>
                && raw < successor == |old(tokens)| && tokens[raw].successor == Some(successor)
                && tokens[successor].usedAt.None? && tokens[successor].family == tokens[raw].family
                && LastInFamily(tokens, successor)
                && (forall presenter, later: int :: Refresh(View(), successor, presenter, later, config).1 ==
                      if later < now + config.ttlSeconds then Rotated(user, successor + 1) else Invalid)
                && (forall presenter, later: int ::
                      now < later < old(tokens)[raw].expiresAt ==>
                        Refresh(View(), raw, presenter, later, config).1 ==
                        if later <= now + config.graceSeconds && presenter == old(tokens)[raw].device
                        then InGrace(user) else Reused)
              case Reused => raw < |tokens| && RevokedFamily(View(), tokens[raw].family)
              case _ => tokens == old(tokens)
    {
      ApplyKeepsFamilies(View(), RefreshOp(raw, device, now), config);
      if raw >= |tokens| {
        return Invalid;
      }
      var token := tokens[raw];
      if token.revokedAt.Some? || token.expiresAt <= now {
        return Invalid;
      }
      if token.usedAt.None? {
        var successor := |tokens|;
        tokens := Create(tokens, token.user, token.family, device, now + config.ttlSeconds);
        tokens := MarkUsed(tokens, raw, successor, now);
        return Rotated(token.user, successor);
      }
      var withinGrace := now - token.usedAt.value <= config.graceSeconds;
      var sameDevice := device == token.device;
      if withinGrace && sameDevice && token.successor.Some? {
        return InGrace(token.user);
      }
      tokens := RevokeFamily(tokens, token.family, now);
      return Reused;
    }

    /** The presented token's family is revoked, every other family is as it was. */
    method LogoutUser(raw: Option<TokenId>, now: int)
      requires Valid()
      modifies this
      ensures Valid() && View() == Logout(old(View()), raw, now) && |tokens| == |old(tokens)|
      ensures raw.Some? && raw.value < |tokens| ==>
                && RevokedFamily(View(), tokens[raw.value].family)
                && forall i :: 0 <= i < |tokens| ==>
                                 tokens[i] == if old(tokens)[i].family == old(tokens)[raw.value].family
                                                 && old(tokens)[i].revokedAt.None?
                                              then old(tokens)[i].(revokedAt := Some(now)) else old(tokens)[i]
      ensures raw.None? || raw.value >= |tokens| ==> tokens == old(tokens)
    {
      ApplyKeepsFamilies(View(), LogoutOp(raw, now), config);
      if raw.Some? && raw.value < |tokens| {
        tokens := RevokeFamily(tokens, tokens[raw.value].family, now);
      }
    }

    /** None of the user's tokens is live any more, every other user's is as it was. */
    method RevokeUserSessions(user: UserId, now: int)
      requires Valid()
      modifies this
      ensures Valid() && View() == RevokeUser(old(View()), user, now) && |tokens| == |old(tokens)|
      ensures forall i :: 0 <= i < |tokens| && tokens[i].user == user ==> tokens[i].revokedAt.Some?
      ensures forall i :: 0 <= i < |tokens| ==>
                            tokens[i] == if old(tokens)[i].user == user && old(tokens)[i].revokedAt.None?
                                         then old(tokens)[i].(revokedAt := Some(now)) else old(tokens)[i]
    {
      ApplyKeepsFamilies(View(), RevokeOp(user, now), config);
      tokens := RevokeAllForUser(tokens, user, now);
    }
  }
}
