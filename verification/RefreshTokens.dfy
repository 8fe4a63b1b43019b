/** Refresh-token families: login, rotation with a grace window and reuse detection, logout, revoke-all. Each
    operation is one step. A raw token is named by the position of its row: raw values never repeat and hashing
    is injective, so the hash lookup finds exactly that row. Times are whole seconds. */
module RefreshTokens {
  import opened Collections

  type TokenId = nat
  type UserId = nat
  type FamilyId = nat

  datatype Token = Token(
    user: UserId,
    family: FamilyId,
    device: string,
    usedAt: Option<int>,
    successor: Option<TokenId>,
    expiresAt: int,
    revokedAt: Option<int>)

  /** The refresh_tokens table in insertion order, and the supply of family ids. */
  datatype Store = Store(tokens: seq<Token>, nextFamily: FamilyId)

  datatype Config = Config(ttlSeconds: int, graceSeconds: int)

  /** Rotated and InGrace carry an access token; Rotated also carries the successor's raw value. */
  datatype Outcome = Rotated(user: UserId, raw: TokenId) | InGrace(user: UserId) | Invalid | Reused

  predicate GivesAccess(o: Outcome) {
    o.Rotated? || o.InGrace?
  }

  // ---------- The repository ----------

  function Create(tokens: seq<Token>, user: UserId, family: FamilyId, device: string, expiresAt: int): seq<Token> {
    tokens + [Token(user, family, device, None, None, expiresAt, None)]
  }

  function MarkUsed(tokens: seq<Token>, id: TokenId, successor: TokenId, now: int): seq<Token>
    requires id < |tokens|
  {
    tokens[id := tokens[id].(usedAt := Some(now), successor := Some(successor))]
  }

  function Revoke(t: Token, now: int): Token {
    if t.revokedAt.None? then t.(revokedAt := Some(now)) else t
  }

  function RevokeWhere(tokens: seq<Token>, hit: Token -> bool, now: int): (out: seq<Token>)
    ensures |out| == |tokens|
    ensures forall i :: 0 <= i < |tokens| ==> out[i] == if hit(tokens[i]) then Revoke(tokens[i], now) else tokens[i]
  {
    seq(|tokens|, i requires 0 <= i < |tokens| => if hit(tokens[i]) then Revoke(tokens[i], now) else tokens[i])
  }

  function RevokeFamily(tokens: seq<Token>, family: FamilyId, now: int): seq<Token> {
    RevokeWhere(tokens, (t: Token) => t.family == family, now)
  }

  function RevokeAllForUser(tokens: seq<Token>, user: UserId, now: int): seq<Token> {
    RevokeWhere(tokens, (t: Token) => t.user == user, now)
  }

  // ---------- The operations ----------

  function Login(s: Store, user: UserId, device: string, now: int, c: Config): Store {
    Store(Create(s.tokens, user, s.nextFamily, device, now + c.ttlSeconds), s.nextFamily + 1)
  }

  function Refresh(s: Store, raw: TokenId, device: string, now: int, c: Config): (Store, Outcome) {
    if raw >= |s.tokens| then (s, Invalid)
    else
      var t := s.tokens[raw];
      if t.revokedAt.Some? || t.expiresAt <= now then (s, Invalid)
      else if t.usedAt.None? then
        var created := Create(s.tokens, t.user, t.family, device, now + c.ttlSeconds);
        (s.(tokens := MarkUsed(created, raw, |s.tokens|, now)), Rotated(t.user, |s.tokens|))
      else if now - t.usedAt.value <= c.graceSeconds && device == t.device && t.successor.Some? then
        (s, InGrace(t.user))
      else
        (s.(tokens := RevokeFamily(s.tokens, t.family, now)), Reused)
  }

  function Logout(s: Store, raw: Option<TokenId>, now: int): Store {
    if raw.Some? && raw.value < |s.tokens|
    then s.(tokens := RevokeFamily(s.tokens, s.tokens[raw.value].family, now))
    else s
  }

  function RevokeUser(s: Store, user: UserId, now: int): Store {
    s.(tokens := RevokeAllForUser(s.tokens, user, now))
  }

  // ---------- Runs ----------

  datatype Op =
    | LoginOp(user: UserId, device: string, now: int)
    | RefreshOp(raw: TokenId, device: string, now: int)
    | LogoutOp(raw_: Option<TokenId>, now: int)
    | RevokeOp(user: UserId, now: int)

  function Apply(s: Store, op: Op, c: Config): Store {
    match op
    case LoginOp(user, device, now) => Login(s, user, device, now, c)
    case RefreshOp(raw, device, now) => Refresh(s, raw, device, now, c).0
    case LogoutOp(raw, now) => Logout(s, raw, now)
    case RevokeOp(user, now) => RevokeUser(s, user, now)
  }

  function Run(s: Store, ops: seq<Op>, c: Config): Store
    decreases |ops|
  {
    if ops == [] then s else Run(Apply(s, ops[0], c), ops[1..], c)
  }
}
