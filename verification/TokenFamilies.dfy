/** Token families are linear chains with one user, wholly live or wholly revoked, in every serial run. */
module TokenFamilies {
  import opened Collections
  import opened RefreshTokens

  /** j is the next token of i's family after i. */
  ghost predicate NextInFamily(tokens: seq<Token>, i: nat, j: nat) {
    && i < j < |tokens| && tokens[j].family == tokens[i].family
    && forall k :: i < k < j ==> tokens[k].family != tokens[i].family
  }

  ghost predicate LastInFamily(tokens: seq<Token>, i: nat) {
    i < |tokens| && forall k :: i < k < |tokens| ==> tokens[k].family != tokens[i].family
  }

  /** A used token points to the next token of its family; an unused one is the last of its family. */
  ghost predicate Linked(tokens: seq<Token>, i: nat)
    requires i < |tokens|
  {
    if tokens[i].usedAt.Some? then tokens[i].successor.Some? && NextInFamily(tokens, i, tokens[i].successor.value)
    else tokens[i].successor.None? && LastInFamily(tokens, i)
  }

  /** Tokens of one family have one user and are all revoked or all live. */
  ghost predicate Agree(a: Token, b: Token) {
    a.family == b.family ==> a.user == b.user && (a.revokedAt.Some? <==> b.revokedAt.Some?)
  }

  ghost predicate Families(s: Store) {
    && (forall i :: 0 <= i < |s.tokens| ==> s.tokens[i].family < s.nextFamily)
    && (forall i :: 0 <= i < |s.tokens| ==> Linked(s.tokens, i))
    && (forall i, j :: 0 <= i < |s.tokens| && 0 <= j < |s.tokens| ==> Agree(s.tokens[i], s.tokens[j]))
  }

  lemma LoginKeepsFamilies(s: Store, user: UserId, device: string, now: int, c: Config)
    requires Families(s)
    ensures Families(Login(s, user, device, now, c))
  {
    var tokens := Login(s, user, device, now, c).tokens;
    forall i | 0 <= i < |tokens|
      ensures Linked(tokens, i)
    {
      if i < |s.tokens| {
        assert Linked(s.tokens, i);
      }
    }
  }

  /** Revocation that treats a family alike keeps every link. */
  lemma RevocationKeepsFamilies(s: Store, tokens: seq<Token>, now: int, hit: set<FamilyId>)
    requires Families(s) && |tokens| == |s.tokens|
    requires forall i :: 0 <= i < |tokens| ==>
                           tokens[i] == if s.tokens[i].family in hit then Revoke(s.tokens[i], now) else s.tokens[i]
    ensures Families(s.(tokens := tokens))
  {
    forall i | 0 <= i < |tokens|
      ensures Linked(tokens, i)
    {
      assert Linked(s.tokens, i);
    }
    forall i, j | 0 <= i < |tokens| && 0 <= j < |tokens|
      ensures Agree(tokens[i], tokens[j])
    {
      assert Agree(s.tokens[i], s.tokens[j]);
    }
  }

  lemma RevokeUserKeepsFamilies(s: Store, user: UserId, now: int)
    requires Families(s)
    ensures Families(RevokeUser(s, user, now))
  {
    var hit := set i | 0 <= i < |s.tokens| && s.tokens[i].user == user :: s.tokens[i].family;
    var tokens := RevokeUser(s, user, now).tokens;
    forall i | 0 <= i < |tokens|
      ensures s.tokens[i].family in hit <==> s.tokens[i].user == user
    {
      if s.tokens[i].family in hit {
        var j :| 0 <= j < |s.tokens| && s.tokens[j].user == user && s.tokens[j].family == s.tokens[i].family;
        assert Agree(s.tokens[i], s.tokens[j]);
      }
    }
    RevocationKeepsFamilies(s, tokens, now, hit);
  }

  lemma RotationKeepsFamilies(s: Store, raw: TokenId, device: string, now: int, c: Config)
    requires Families(s) && Refresh(s, raw, device, now, c).1.Rotated?
    ensures Families(Refresh(s, raw, device, now, c).0)
  {
    var n := |s.tokens|;
    var tokens := Refresh(s, raw, device, now, c).0.tokens;
    assert Linked(s.tokens, raw);
    forall i | 0 <= i < |tokens|
      ensures Linked(tokens, i)
    {
      if i < n {
        assert Linked(s.tokens, i);
        if i != raw {
          RotationElsewhere(s, raw, tokens, i);
        } else {
          assert NextInFamily(tokens, raw, n);
        }
      }
    }
    forall i, j | 0 <= i < |tokens| && 0 <= j < |tokens|
      ensures Agree(tokens[i], tokens[j])
    {
      assert Agree(s.tokens[if i == n then raw else i], s.tokens[if j == n then raw else j]);
    }
  }

  /** Rotating another token: i keeps its link, since it is not the last of the rotated family. */
  lemma RotationElsewhere(s: Store, raw: TokenId, tokens: seq<Token>, i: nat)
    requires raw < |s.tokens| && i < |s.tokens| && i != raw && |tokens| == |s.tokens| + 1
    requires forall k :: 0 <= k < |s.tokens| ==> tokens[k].family == s.tokens[k].family
    requires tokens[|s.tokens|].family == s.tokens[raw].family && tokens[i] == s.tokens[i]
    requires Linked(s.tokens, i) && LastInFamily(s.tokens, raw)
    ensures Linked(tokens, i)
  {
    if s.tokens[i].usedAt.None? {
      assert LastInFamily(s.tokens, i);
      assert s.tokens[i].family != s.tokens[raw].family;
    }
  }

  lemma ApplyKeepsFamilies(s: Store, op: Op, c: Config)
    requires Families(s)
    ensures Families(Apply(s, op, c))
  {
    match op
    case LoginOp(user, device, now) => LoginKeepsFamilies(s, user, device, now, c);
    case RevokeOp(user, now) => RevokeUserKeepsFamilies(s, user, now);
    case LogoutOp(raw, now) =>
      if raw.Some? && raw.value < |s.tokens| {
        RevocationKeepsFamilies(s, Logout(s, raw, now).tokens, now, {s.tokens[raw.value].family});
      }
    case RefreshOp(raw, device, now) =>
      var (s', outcome) := Refresh(s, raw, device, now, c);
      if outcome.Rotated? {
        RotationKeepsFamilies(s, raw, device, now, c);
      } else if outcome.Reused? {
        RevocationKeepsFamilies(s, s'.tokens, now, {s.tokens[raw].family});
      }
  }

  /** In every serial run of login, refresh, logout and revoke-all: successor links run along each family in order
      of creation, and a family has one user and is wholly live or wholly revoked. */
  lemma {:induction false} FamiliesAlways(ops: seq<Op>, s: Store, c: Config)
    requires Families(s)
    ensures Families(Run(s, ops, c))
    decreases |ops|
  {
    if ops != [] {
      ApplyKeepsFamilies(s, ops[0], c);
      FamiliesAlways(ops[1..], Apply(s, ops[0], c), c);
    }
  }

  lemma EmptyStore()
    ensures Families(Store([], 0))
  {
  }

  /** In particular in every serial run from an empty table. */
  lemma FamiliesFromScratch(ops: seq<Op>, c: Config)
    ensures Families(Run(Store([], 0), ops, c))
  {
    EmptyStore();
    FamiliesAlways(ops, Store([], 0), c);
  }

  /** So each family has exactly one unused token, its newest, and its tokens form one acyclic chain: every token
      but the newest has a successor, created later, and no two tokens share one. */
  lemma {:induction false} OneUnusedTip(s: Store, i: nat)
    returns (tip: nat)
    requires Families(s) && i < |s.tokens|
    ensures i <= tip < |s.tokens| && s.tokens[tip].family == s.tokens[i].family && s.tokens[tip].usedAt.None?
    ensures forall k :: 0 <= k < |s.tokens| && s.tokens[k].family == s.tokens[i].family ==>
                          && k <= tip && (s.tokens[k].usedAt.None? <==> k == tip)
                          && (k < tip ==> s.tokens[k].successor.Some? && k < s.tokens[k].successor.value <= tip)
    decreases |s.tokens| - i
  {
    assert Linked(s.tokens, i);
    if s.tokens[i].usedAt.None? {
      tip := i;
    } else {
      tip := OneUnusedTip(s, s.tokens[i].successor.value);
    }
    forall k | 0 <= k < |s.tokens| && s.tokens[k].family == s.tokens[i].family
      ensures k <= tip && (s.tokens[k].usedAt.None? <==> k == tip)
      ensures k < tip ==> s.tokens[k].successor.Some? && k < s.tokens[k].successor.value <= tip
    {
      assert Linked(s.tokens, k) && Linked(s.tokens, tip);
    }
  }

  lemma SuccessorsDiffer(s: Store)
    requires Families(s)
    ensures forall i, j :: 0 <= i < j < |s.tokens| && s.tokens[i].successor.Some? ==>
                             s.tokens[i].successor != s.tokens[j].successor
  {
    forall i, j | 0 <= i < j < |s.tokens| && s.tokens[i].successor.Some?
      ensures s.tokens[i].successor != s.tokens[j].successor
    {
      assert Linked(s.tokens, i) && Linked(s.tokens, j);
    }
  }
}
