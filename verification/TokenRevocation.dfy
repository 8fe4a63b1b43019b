/** What revoking a token family means, what makes it happen, and what each presentation of a token is answered. */
module TokenRevocation {
  import opened Collections
  import opened RefreshTokens
  import opened TokenFamilies

  ghost predicate RevokedFamily(s: Store, family: FamilyId) {
    forall i :: 0 <= i < |s.tokens| && s.tokens[i].family == family ==> s.tokens[i].revokedAt.Some?
  }

  /** later keeps the tokens of the family exactly as far as revocation and membership go. */
  ghost predicate SameMembers(s: Store, later: Store, family: FamilyId) {
    && |s.tokens| <= |later.tokens|
    && (forall i :: 0 <= i < |s.tokens| ==> later.tokens[i].family == s.tokens[i].family)
    && forall i :: |s.tokens| <= i < |later.tokens| ==> later.tokens[i].family != family
  }

  lemma RevokedStep(s: Store, op: Op, family: FamilyId, c: Config)
    requires family < s.nextFamily && RevokedFamily(s, family)
    ensures var s' := Apply(s, op, c);
            RevokedFamily(s', family) && SameMembers(s, s', family) && family < s'.nextFamily
  {
  }

  predicate Denied(s: Store, raw: TokenId, device: string, now: int, c: Config) {
    !GivesAccess(Refresh(s, raw, device, now, c).1)
  }

  /** Once a family is revoked it stays revoked through every later run, no token ever joins it, and no token of
      it ever yields an access token again, whoever presents it and when. */
  lemma {:induction false} RevocationIsFinal(s: Store, ops: seq<Op>, family: FamilyId, c: Config)
    requires family < s.nextFamily && RevokedFamily(s, family)
    ensures var later := Run(s, ops, c);
            && RevokedFamily(later, family) && SameMembers(s, later, family)
            && forall raw: TokenId, device, now ::
                 raw < |later.tokens| && later.tokens[raw].family == family ==> Denied(later, raw, device, now, c)
    decreases |ops|
  {
    if ops != [] {
      RevokedStep(s, ops[0], family, c);
      RevocationIsFinal(Apply(s, ops[0], c), ops[1..], family, c);
    }
  }

  /** The theft signal: presenting a used token outside the grace window or from another device revokes its whole
      family; inside the window on the same device it gives access and changes nothing. */
  lemma ReuseRevokesFamily(s: Store, raw: TokenId, device: string, now: int, c: Config)
    requires Families(s) && raw < |s.tokens|
    requires var t := s.tokens[raw]; t.usedAt.Some? && t.revokedAt.None? && now < t.expiresAt
    ensures var (s', outcome) := Refresh(s, raw, device, now, c); var t := s.tokens[raw];
            if now - t.usedAt.value <= c.graceSeconds && device == t.device
            then outcome == InGrace(t.user) && s' == s
            else outcome == Reused && RevokedFamily(s', t.family)
  {
    assert Linked(s.tokens, raw);
  }

  /** Logging out revokes the presented token's family, even when that token was used or expired. */
  lemma LogoutRevokes(s: Store, raw: TokenId, now: int)
    requires raw < |s.tokens|
    ensures RevokedFamily(Logout(s, Some(raw), now), s.tokens[raw].family)
  {
  }

  /** Revoking a user's sessions revokes every family of the user. */
  lemma RevokeUserRevokes(s: Store, user: UserId, now: int, i: nat)
    requires Families(s) && i < |s.tokens| && s.tokens[i].user == user
    ensures RevokedFamily(RevokeUser(s, user, now), s.tokens[i].family)
  {
    forall j | 0 <= j < |s.tokens| && s.tokens[j].family == s.tokens[i].family
      ensures RevokeUser(s, user, now).tokens[j].revokedAt.Some?
    {
      assert Agree(s.tokens[i], s.tokens[j]);
    }
  }

  // ---------- The life of a token, from what its users do ----------

  /** A login, or a refresh that rotates, makes a token: for whom, from which device, when. */
  ghost predicate Makes(s: Store, op: Op, user: UserId, device: string, now: int, c: Config) {
    match op
    case LoginOp(u, d, n) => u == user && d == device && n == now
    case RefreshOp(raw, d, n) =>
      && d == device && n == now && raw < |s.tokens|
      && Refresh(s, raw, d, n, c).1 == Rotated(user, |s.tokens|)
    case _ => false
  }

  /** The answer to a token made for a user from a device at a time, first used at another time if it was. */
  function Answer(user: UserId, device: string, made: int, used: Option<int>, revoked: bool,
                  presenter: string, now: int, next: TokenId, c: Config): Outcome {
    if revoked || made + c.ttlSeconds <= now then Invalid
    else
      match used
      case None => Rotated(user, next)
      case Some(first) => if now <= first + c.graceSeconds && presenter == device then InGrace(user) else Reused
  }

  ghost predicate Presents(op: Op, raw: TokenId) {
    op.RefreshOp? && op.raw == raw
  }

  /** What later operations leave of a token; they use it only by presenting it. */
  lemma {:induction false} TokenKeeps(s: Store, ops: seq<Op>, raw: TokenId, c: Config)
    requires raw < |s.tokens|
    ensures var t, later := s.tokens[raw], Run(s, ops, c);
            && raw < |later.tokens|
            && var t' := later.tokens[raw];
               && t'.user == t.user && t'.device == t.device && t'.expiresAt == t.expiresAt && t'.family == t.family
               && (t.usedAt.Some? ==> t'.usedAt == t.usedAt && t'.successor == t.successor)
               && ((forall op <- ops :: !Presents(op, raw)) ==> t'.usedAt == t.usedAt)
    decreases |ops|
  {
    if ops != [] {
      TokenKeeps(Apply(s, ops[0], c), ops[1..], raw, c);
      assert (forall op <- ops :: !Presents(op, raw)) ==> !Presents(ops[0], raw) && forall op <- ops[1..] :: op in ops;
    }
  }

  /** The first presentation of a token, whatever others did since it was made: it rotates before its time is up. */
  lemma FirstPresentation(s: Store, op: Op, user: UserId, device: string, made: int, ops: seq<Op>,
                          presenter: string, now: int, c: Config)
    requires Makes(s, op, user, device, made, c) && forall o <- ops :: !Presents(o, |s.tokens|)
    ensures var raw, v := |s.tokens|, Run(Apply(s, op, c), ops, c);
            && raw < |v.tokens|
            && Refresh(v, raw, presenter, now, c).1
               == Answer(user, device, made, None, v.tokens[raw].revokedAt.Some?, presenter, now, |v.tokens|, c)
            && (ops == [] ==> v.tokens[raw].revokedAt.None?)
  {
    TokenKeeps(Apply(s, op, c), ops, |s.tokens|, c);
  }

  /** Every later one: inside the grace window and from the device the token was made for it gives access, after that
      or from elsewhere it is a reuse, and once the token's time is up or its family is revoked it is refused. */
  lemma LaterPresentation(s: Store, op: Op, user: UserId, device: string, made: int, ops: seq<Op>, firstDevice: string,
                          used: int, more: seq<Op>, presenter: string, now: int, c: Config)
    requires Makes(s, op, user, device, made, c) && forall o <- ops :: !Presents(o, |s.tokens|)
    requires Refresh(Run(Apply(s, op, c), ops, c), |s.tokens|, firstDevice, used, c).1.Rotated?
    ensures var raw := |s.tokens|;
            var rotated := Refresh(Run(Apply(s, op, c), ops, c), raw, firstDevice, used, c).0;
            var v := Run(rotated, more, c);
            && raw < |v.tokens|
            && Refresh(v, raw, presenter, now, c).1
               == Answer(user, device, made, Some(used), v.tokens[raw].revokedAt.Some?, presenter, now, |v.tokens|, c)
            && (more == [] ==> v.tokens[raw].revokedAt.None?)
  {
    var raw := |s.tokens|;
    FirstPresentation(s, op, user, device, made, ops, firstDevice, used, c);
    TokenKeeps(Apply(s, op, c), ops, raw, c);
    var rotated := Refresh(Run(Apply(s, op, c), ops, c), raw, firstDevice, used, c).0;
    TokenKeeps(rotated, more, raw, c);
  }
}
