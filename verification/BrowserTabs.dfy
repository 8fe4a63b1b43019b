/** The tabs of one browser sharing one refresh cookie: refreshes serialised by a lock, tokens passed on by
    broadcasts of any delay. The rest of the world logs in, refreshes and is revoked at the same time. */
module BrowserTabs {
  import opened Collections
  import opened RefreshTokens
  import opened TokenFamilies
  import opened TokenRevocation

  const RECENT_REFRESH_WINDOW_MS := 2000

  /** Where the tab's call of refreshAccessToken that has the lock is: before the check, or waiting for the server's
      response to its request. Idle when none of the tab's calls has it. */
  datatype Phase = Idle | Locked | Awaiting(outcome: Outcome)

  /** `waiting` counts the tab's calls that wait for the lock: every request of the tab that meets a 401 makes one.
      `inbox` holds the broadcasts not yet seen: true is a refreshed token, false a logout. */
  datatype Tab = Tab(hasToken: bool, lastRefreshedAt: int, waiting: nat, phase: Phase, inbox: seq<bool>)

  /** `own` are the families this browser ever logged in to. */
  datatype World = World(store: Store, cookie: Option<TokenId>, tabs: seq<Tab>, nowMs: int, own: set<FamilyId>)

  datatype Event =
    | Pass(ms: nat)
    | NeedsToken(i: nat)
    | Grant(i: nat)
    | Proceed(i: nat, device: string)
    | Respond(i: nat)
    | SeeBroadcast(i: nat)
    | LogIn(i: nat, user: UserId, device: string)
    | LogOut(i: nat)
    | Elsewhere(op: Op)

  /** A tab's module variables after a broadcast. */
  function AfterMessage(t: Tab, refreshed: bool, nowMs: int): Tab {
    if refreshed then t.(hasToken := true, lastRefreshedAt := nowMs) else t.(hasToken := false)
  }

  function AfterSet(t: Tab, nowMs: int): Tab {
    t.(hasToken := true, lastRefreshedAt := nowMs)
  }

  /** Does a refresh of this tab need the network, or did some tab refresh just now? */
  predicate MustRequest(t: Tab, nowMs: int) {
    !(nowMs - t.lastRefreshedAt < RECENT_REFRESH_WINDOW_MS && t.hasToken)
  }

  /** The module variables of one tab. */
  class AuthRefresh {
    var hasToken: bool
    var lastRefreshedAt: int

    constructor ()
      ensures !hasToken && lastRefreshedAt == 0
    {
      hasToken, lastRefreshedAt := false, 0;
    }

    function View(t: Tab): Tab
      reads this
    {
      t.(hasToken := hasToken, lastRefreshedAt := lastRefreshedAt)
    }

    /** A refresh elsewhere spares this tab's requests for exactly two seconds, a logout spares none. */
    method OnMessage(refreshed: bool, nowMs: int)
      modifies this
      ensures forall t :: View(t) == AfterMessage(old(View(t)), refreshed, nowMs)
      ensures forall t, ms :: MustRequest(View(t), ms) <==> !refreshed || ms >= nowMs + RECENT_REFRESH_WINDOW_MS
    {
      if refreshed {
        hasToken := true;
        lastRefreshedAt := nowMs;
      } else {
        hasToken := false;
      }
    }

    /** What a call does once it has the lock; `response` is when an access token arrives, if one does. A token that
        arrives spares requests for two seconds; otherwise nothing changes. */
    method RunRefresh(nowMs: int, response: Option<int>) returns (requested: bool, ok: bool)
      modifies this
      ensures forall t :: requested == old(MustRequest(View(t), nowMs))
      ensures ok <==> !requested || response.Some?
      ensures requested && ok ==> forall t :: View(t) == AfterSet(old(View(t)), response.value)
      ensures requested && ok ==>
                forall t, ms :: MustRequest(View(t), ms) <==> ms >= response.value + RECENT_REFRESH_WINDOW_MS
      ensures !requested || !ok ==> forall t :: View(t) == old(View(t))
    {
      if nowMs - lastRefreshedAt < RECENT_REFRESH_WINDOW_MS && hasToken {
        return false, true;
      }
      if response.None? {
        return true, false;
      }
      hasToken, lastRefreshedAt := true, response.value;
      return true, true;
    }
  }

  predicate HoldsLock(t: Tab) {
    t.phase.Locked? || t.phase.Awaiting?
  }

  function Set(w: World, i: nat, t: Tab): World
    requires i < |w.tabs|
  {
    w.(tabs := w.tabs[i := t])
  }

  function Seconds(ms: int): int {
    ms / 1000
  }

  /** postMessage reaches every other tab, some time. */
  function Broadcast(tabs: seq<Tab>, from: nat, refreshed: bool): (out: seq<Tab>)
    ensures |out| == |tabs|
    ensures forall k :: 0 <= k < |tabs| ==>
                          out[k] == if k == from then tabs[k] else tabs[k].(inbox := tabs[k].inbox + [refreshed])
  {
    seq(|tabs|, k requires 0 <= k < |tabs| =>
                if k == from then tabs[k] else tabs[k].(inbox := tabs[k].inbox + [refreshed]))
  }

  /** POST /auth/refresh with the cookie; without one the route refuses. */
  function Request(w: World, device: string, c: Config): (Store, Outcome) {
    if w.cookie.None? then (w.store, Invalid)
    else Refresh(w.store, w.cookie.value, device, Seconds(w.nowMs), c)
  }

  /** Work of other clients: they never present this browser's tokens. */
  predicate Foreign(w: World, op: Op) {
    match op
    case RefreshOp(raw, _, _) => raw < |w.store.tokens| ==> w.store.tokens[raw].family !in w.own
    case _ => true
  }

  ghost predicate LockFree(w: World) {
    forall k :: 0 <= k < |w.tabs| ==> !HoldsLock(w.tabs[k])
  }

  /** One of the tab's waiting calls gets the lock. */
  function Granted(t: Tab): Tab
    requires t.waiting > 0
  {
    t.(waiting := t.waiting - 1, phase := Locked)
  }

  ghost function Step(w: World, e: Event, c: Config): World {
    match e
    case Pass(ms) => w.(nowMs := w.nowMs + ms)
    case NeedsToken(i) =>
      if i < |w.tabs| then Set(w, i, w.tabs[i].(waiting := w.tabs[i].waiting + 1)) else w
    case Grant(i) =>
      if i < |w.tabs| && w.tabs[i].waiting > 0 && LockFree(w) then Set(w, i, Granted(w.tabs[i])) else w
    case Proceed(i, device) =>
      if i < |w.tabs| && w.tabs[i].phase.Locked? then
        if !MustRequest(w.tabs[i], w.nowMs)
        then Set(w, i, w.tabs[i].(phase := Idle))
        else
          var (store, outcome) := Request(w, device, c);
          Set(w, i, w.tabs[i].(phase := Awaiting(outcome))).(store := store)
      else w
    case Respond(i) =>
      if i < |w.tabs| && w.tabs[i].phase.Awaiting? then
        var outcome := w.tabs[i].phase.outcome;
        if GivesAccess(outcome) then
          var tab := AfterSet(w.tabs[i], w.nowMs).(phase := Idle);
          w.(cookie := if outcome.Rotated? then Some(outcome.raw) else w.cookie,
             tabs := Broadcast(w.tabs[i := tab], i, true))
        else Set(w, i, w.tabs[i].(phase := Idle))
      else w
    case SeeBroadcast(i) =>
      if i < |w.tabs| && w.tabs[i].inbox != [] then
        var tab := w.tabs[i].(inbox := w.tabs[i].inbox[1..]);
        Set(w, i, AfterMessage(tab, w.tabs[i].inbox[0], w.nowMs))
      else w
    case LogIn(i, user, device) =>
      if i < |w.tabs| then
        var tab := AfterSet(w.tabs[i], w.nowMs);
        World(Login(w.store, user, device, Seconds(w.nowMs), c), Some(|w.store.tokens|), w.tabs[i := tab],
              w.nowMs, w.own + {w.store.nextFamily})
      else w
    case LogOut(i) =>
      if i < |w.tabs| then
        w.(store := Logout(w.store, w.cookie, Seconds(w.nowMs)), cookie := None,
           tabs := Broadcast(w.tabs[i := w.tabs[i].(hasToken := false)], i, false))
      else w
    case Elsewhere(op) => if Foreign(w, op) then w.(store := Apply(w.store, op, c)) else w
  }

  ghost function RunWorld(w: World, es: seq<Event>, c: Config): World
    decreases |es|
  {
    if es == [] then w else RunWorld(Step(w, es[0], c), es[1..], c)
  }

  function Opened(tabs: nat, store: Store): World {
    World(store, None, seq(tabs, _ => Tab(false, 0, 0, Idle, [])), 0, {})
  }

  // ---------- The invariant ----------

  ghost predicate OwnUnused(w: World, raw: TokenId) {
    raw < |w.store.tokens| && w.store.tokens[raw].usedAt.None? && w.store.tokens[raw].family in w.own
  }

  /** The answer to a tab's request: never a reuse, never a grace; a rotation brings an unused successor. */
  ghost predicate GoodAnswer(w: World, t: Tab) {
    t.phase.Awaiting? ==>
      t.phase.outcome.Invalid? || (t.phase.outcome.Rotated? && OwnUnused(w, t.phase.outcome.raw))
  }

  predicate AwaitsSuccessor(t: Tab) {
    t.phase.Awaiting? && t.phase.outcome.Rotated?
  }

  ghost predicate Good(w: World) {
    && Families(w.store)
    && (forall f <- w.own :: f < w.store.nextFamily)
    && (forall j, k :: 0 <= j < k < |w.tabs| ==> !(HoldsLock(w.tabs[j]) && HoldsLock(w.tabs[k])))
    && (forall k :: 0 <= k < |w.tabs| ==> GoodAnswer(w, w.tabs[k]))
    && (w.cookie.Some? ==>
          OwnUnused(w, w.cookie.value) || exists k :: 0 <= k < |w.tabs| && AwaitsSuccessor(w.tabs[k]))
  }

  /** Nothing but this browser's own refresh ever uses one of its tokens. */
  lemma ForeignSparesOwn(w: World, op: Op, raw: TokenId, c: Config)
    requires Foreign(w, op) && OwnUnused(w, raw)
    ensures OwnUnused(w.(store := Apply(w.store, op, c)), raw)
  {
  }

  lemma LogoutSparesOwn(s: Store, cookie: Option<TokenId>, now: int, raw: TokenId)
    requires raw < |s.tokens|
    ensures var s' := Logout(s, cookie, now);
            raw < |s'.tokens| && s'.tokens[raw].usedAt == s.tokens[raw].usedAt
            && s'.tokens[raw].family == s.tokens[raw].family
  {
  }

  /** A request of the lock holder presents an unused token: it is rotated, or refused as expired or revoked. */
  lemma RequestIsNeverReuse(w: World, device: string, c: Config)
    requires Families(w.store) && (w.cookie.Some? ==> OwnUnused(w, w.cookie.value))
    ensures var (store, outcome) := Request(w, device, c);
            && (outcome.Invalid? || outcome.Rotated?)
            && Families(store)
            && store.nextFamily == w.store.nextFamily
            && (outcome.Rotated? ==> OwnUnused(w.(store := store), outcome.raw))
  {
    if w.cookie.Some? {
      ApplyKeepsFamilies(w.store, RefreshOp(w.cookie.value, device, Seconds(w.nowMs)), c);
    }
  }

  lemma ElsewhereStep(w: World, op: Op, c: Config)
    requires Good(w) && Foreign(w, op)
    ensures Good(w.(store := Apply(w.store, op, c)))
  {
    var w' := w.(store := Apply(w.store, op, c));
    ApplyKeepsFamilies(w.store, op, c);
    forall k | 0 <= k < |w.tabs|
      ensures GoodAnswer(w', w'.tabs[k])
    {
      assert GoodAnswer(w, w.tabs[k]);
      if w.tabs[k].phase.Awaiting? && w.tabs[k].phase.outcome.Rotated? {
        ForeignSparesOwn(w, op, w.tabs[k].phase.outcome.raw, c);
      }
    }
    if w.cookie.Some? && OwnUnused(w, w.cookie.value) {
      ForeignSparesOwn(w, op, w.cookie.value, c);
    }
  }

  lemma ProceedStep(w: World, i: nat, device: string, c: Config)
    requires Good(w) && i < |w.tabs|
    ensures Good(Step(w, Proceed(i, device), c))
  {
    var w' := Step(w, Proceed(i, device), c);
    if w.tabs[i].phase.Locked? && w'.tabs[i].phase.Awaiting? {
      assert forall k :: 0 <= k < |w.tabs| && k != i ==> !HoldsLock(w.tabs[k]);
      RequestIsNeverReuse(w, device, c);
      assert GoodAnswer(w', w'.tabs[i]);
      assert w'.tabs[i].phase.outcome.Rotated? ==> AwaitsSuccessor(w'.tabs[i]);
    } else {
      SamePhases(w, w');
    }
  }

  /** Steps that leave the store, the cookie and the pending answers alone. */
  lemma SamePhases(w: World, w': World)
    requires Good(w) && |w'.tabs| == |w.tabs|
    requires w'.store == w.store && w'.cookie == w.cookie && w'.own == w.own
    requires forall k :: 0 <= k < |w.tabs| ==>
                           && (w'.tabs[k].phase.Awaiting? <==> w.tabs[k].phase.Awaiting?)
                           && (w'.tabs[k].phase.Awaiting? ==> w'.tabs[k].phase == w.tabs[k].phase)
                           && (HoldsLock(w'.tabs[k]) ==> HoldsLock(w.tabs[k]) || LockFree(w))
    requires LockFree(w) ==> forall j, k :: 0 <= j < k < |w.tabs| ==> !(HoldsLock(w'.tabs[j]) && HoldsLock(w'.tabs[k]))
    ensures Good(w')
  {
    forall k | 0 <= k < |w.tabs|
      ensures GoodAnswer(w', w'.tabs[k])
    {
      assert GoodAnswer(w, w.tabs[k]);
    }
    if w.cookie.Some? && !OwnUnused(w, w.cookie.value) {
      var k :| 0 <= k < |w.tabs| && AwaitsSuccessor(w.tabs[k]);
      assert AwaitsSuccessor(w'.tabs[k]);
    }
  }

  lemma RespondStep(w: World, i: nat, c: Config)
    requires Good(w) && i < |w.tabs| && w.tabs[i].phase.Awaiting?
    ensures Good(Step(w, Respond(i), c))
  {
    var w' := Step(w, Respond(i), c);
    assert GoodAnswer(w, w.tabs[i]);
    assert forall k :: 0 <= k < |w.tabs| && k != i ==> !HoldsLock(w.tabs[k]);
    assert forall k :: 0 <= k < |w.tabs| ==> !HoldsLock(w'.tabs[k]);
  }

  lemma LogInStep(w: World, i: nat, user: UserId, device: string, c: Config)
    requires Good(w) && i < |w.tabs|
    ensures Good(Step(w, LogIn(i, user, device), c))
  {
    var w' := Step(w, LogIn(i, user, device), c);
    LoginKeepsFamilies(w.store, user, device, Seconds(w.nowMs), c);
    assert OwnUnused(w', w'.cookie.value);
    forall k | 0 <= k < |w.tabs|
      ensures GoodAnswer(w', w'.tabs[k])
    {
      assert GoodAnswer(w, w.tabs[k]);
    }
  }

  lemma LogOutStep(w: World, i: nat, c: Config)
    requires Good(w) && i < |w.tabs|
    ensures Good(Step(w, LogOut(i), c))
  {
    var w' := Step(w, LogOut(i), c);
    ApplyKeepsFamilies(w.store, LogoutOp(w.cookie, Seconds(w.nowMs)), c);
    forall k | 0 <= k < |w.tabs|
      ensures GoodAnswer(w', w'.tabs[k])
    {
      assert GoodAnswer(w, w.tabs[k]);
      if AwaitsSuccessor(w.tabs[k]) {
        LogoutSparesOwn(w.store, w.cookie, Seconds(w.nowMs), w.tabs[k].phase.outcome.raw);
      }
    }
  }

  lemma GoodStep(w: World, e: Event, c: Config)
    requires Good(w)
    ensures Good(Step(w, e, c))
  {
    match e
    case Proceed(i, device) => if i < |w.tabs| { ProceedStep(w, i, device, c); }
    case Respond(i) => if i < |w.tabs| && w.tabs[i].phase.Awaiting? { RespondStep(w, i, c); }
    case LogIn(i, user, device) => if i < |w.tabs| { LogInStep(w, i, user, device, c); }
    case LogOut(i) => if i < |w.tabs| { LogOutStep(w, i, c); }
    case Elsewhere(op) => if Foreign(w, op) { ElsewhereStep(w, op, c); }
    case Pass(_) => SamePhases(w, Step(w, e, c));
    case NeedsToken(_) => SamePhases(w, Step(w, e, c));
    case Grant(_) => SamePhases(w, Step(w, e, c));
    case SeeBroadcast(_) => SamePhases(w, Step(w, e, c));
  }

  lemma {:induction false} GoodRun(w: World, es: seq<Event>, c: Config)
    requires Good(w)
    ensures Good(RunWorld(w, es, c))
    decreases |es|
  {
    if es != [] {
      GoodStep(w, es[0], c);
      GoodRun(Step(w, es[0], c), es[1..], c);
    }
  }

  /** Multi-tab safety: for any number of tabs, any number of calls in each, and any interleaving of expiries, lock
      grants, responses, delayed broadcasts, logins, logouts and other clients, no request of the browser is ever
      answered as a reuse or from the grace window, and whenever the lock is free the cookie is the unused tip of its
      family. */
  lemma TabsNeverReuse(tabs: nat, store: Store, es: seq<Event>, c: Config)
    requires Families(store)
    ensures var w := RunWorld(Opened(tabs, store), es, c);
            && (forall k :: 0 <= k < |w.tabs| && w.tabs[k].phase.Awaiting? ==>
                  !w.tabs[k].phase.outcome.Reused? && !w.tabs[k].phase.outcome.InGrace?)
            && (LockFree(w) && w.cookie.Some? ==>
                  && w.cookie.value < |w.store.tokens|
                  && w.store.tokens[w.cookie.value].usedAt.None?
                  && LastInFamily(w.store.tokens, w.cookie.value))
  {
    var w := RunWorld(Opened(tabs, store), es, c);
    GoodRun(Opened(tabs, store), es, c);
    forall k | 0 <= k < |w.tabs| && w.tabs[k].phase.Awaiting?
      ensures !w.tabs[k].phase.outcome.Reused? && !w.tabs[k].phase.outcome.InGrace?
    {
      assert GoodAnswer(w, w.tabs[k]);
    }
    if LockFree(w) && w.cookie.Some? {
      assert forall k :: 0 <= k < |w.tabs| ==> !AwaitsSuccessor(w.tabs[k]);
      assert Linked(w.store.tokens, w.cookie.value);
    }
  }

  // ---------- What the lock is for ----------

  /** A browser without Web Locks: every tab that wants to refresh goes ahead at once. */
  ghost function UnlockedStep(w: World, e: Event, c: Config): World {
    if e.Grant? then
      if e.i < |w.tabs| && w.tabs[e.i].waiting > 0 && w.tabs[e.i].phase.Idle? then Set(w, e.i, Granted(w.tabs[e.i]))
      else w
    else Step(w, e, c)
  }

  ghost function UnlockedRun(w: World, es: seq<Event>, c: Config): World
    decreases |es|
  {
    if es == [] then w else UnlockedRun(UnlockedStep(w, es[0], c), es[1..], c)
  }

  lemma UnlockedCons(w: World, e: Event, es: seq<Event>, c: Config)
    ensures UnlockedRun(w, [e] + es, c) == UnlockedRun(UnlockedStep(w, e, c), es, c)
  {
    assert ([e] + es)[1..] == es;
  }

  /** Both tabs want a token; the first one's answer is on its way while the second sends the same cookie. */
  function SlowAnswer(device: string, ms: nat): seq<Event> {
    BothGranted([Proceed(0, device)] + ([Pass(ms)] + ([Proceed(1, device)] + [])))
  }

  function BothGranted(rest: seq<Event>): seq<Event> {
    [NeedsToken(0)] + ([NeedsToken(1)] + ([Grant(0)] + ([Grant(1)] + rest)))
  }

  function TwoTabs(store: Store, raw: TokenId, nowMs: int, own: set<FamilyId>, a: Phase, b: Phase): World {
    WantingTabs(store, raw, nowMs, own, a, b, 0, 0)
  }

  function WantingTabs(store: Store, raw: TokenId, nowMs: int, own: set<FamilyId>, a: Phase, b: Phase,
                       calls0: nat, calls1: nat): World {
    World(store, Some(raw), [Tab(false, 0, calls0, a, []), Tab(false, 0, calls1, b, [])], nowMs, own)
  }

  lemma BothGrantedRun(s: Store, raw: TokenId, nowMs: int, own: set<FamilyId>, rest: seq<Event>, c: Config)
    ensures UnlockedRun(TwoTabs(s, raw, nowMs, own, Idle, Idle), BothGranted(rest), c)
         == UnlockedRun(TwoTabs(s, raw, nowMs, own, Locked, Locked), rest, c)
  {
    var w0, w1 := TwoTabs(s, raw, nowMs, own, Idle, Idle), WantingTabs(s, raw, nowMs, own, Idle, Idle, 1, 0);
    var w2 := WantingTabs(s, raw, nowMs, own, Idle, Idle, 1, 1);
    var w3 := WantingTabs(s, raw, nowMs, own, Locked, Idle, 0, 1);
    var w4 := TwoTabs(s, raw, nowMs, own, Locked, Locked);
    assert UnlockedStep(w0, NeedsToken(0), c) == w1 && UnlockedStep(w1, NeedsToken(1), c) == w2;
    assert UnlockedStep(w2, Grant(0), c) == w3 && UnlockedStep(w3, Grant(1), c) == w4;
    UnlockedCons(w0, NeedsToken(0), [NeedsToken(1)] + ([Grant(0)] + ([Grant(1)] + rest)), c);
    UnlockedCons(w1, NeedsToken(1), [Grant(0)] + ([Grant(1)] + rest), c);
    UnlockedCons(w2, Grant(0), [Grant(1)] + rest, c);
    UnlockedCons(w3, Grant(1), rest, c);
  }

  lemma RequestStep(
    s: Store, raw: TokenId, device: string, nowMs: int, own: set<FamilyId>, a: Phase, b: Phase, i: nat, c: Config)
    requires i < 2 && (if i == 0 then a else b).Locked?
    ensures var (s', outcome) := Refresh(s, raw, device, Seconds(nowMs), c);
            UnlockedStep(TwoTabs(s, raw, nowMs, own, a, b), Proceed(i, device), c)
            == TwoTabs(s', raw, nowMs, own, if i == 0 then Awaiting(outcome) else a,
                       if i == 1 then Awaiting(outcome) else b)
  {
  }

  lemma SlowAnswerRun(s: Store, raw: TokenId, device: string, nowMs: int, ms: nat, own: set<FamilyId>, c: Config)
    ensures var (s1, first) := Refresh(s, raw, device, Seconds(nowMs), c);
            var (s2, second) := Refresh(s1, raw, device, Seconds(nowMs + ms), c);
            UnlockedRun(TwoTabs(s, raw, nowMs, own, Idle, Idle), SlowAnswer(device, ms), c)
            == TwoTabs(s2, raw, nowMs + ms, own, Awaiting(first), Awaiting(second))
  {
    var (s1, first) := Refresh(s, raw, device, Seconds(nowMs), c);
    var w4 := TwoTabs(s, raw, nowMs, own, Locked, Locked);
    var w5 := TwoTabs(s1, raw, nowMs, own, Awaiting(first), Locked);
    var w6 := TwoTabs(s1, raw, nowMs + ms, own, Awaiting(first), Locked);
    var last := [Proceed(1, device)] + [];
    BothGrantedRun(s, raw, nowMs, own, [Proceed(0, device)] + ([Pass(ms)] + last), c);
    RequestStep(s, raw, device, nowMs, own, Locked, Locked, 0, c);
    UnlockedCons(w4, Proceed(0, device), [Pass(ms)] + last, c);
    assert UnlockedStep(w5, Pass(ms), c) == w6;
    UnlockedCons(w5, Pass(ms), last, c);
    RequestStep(s1, raw, device, nowMs + ms, own, Awaiting(first), Locked, 1, c);
    UnlockedCons(w6, Proceed(1, device), [], c);
  }

  /** Without the lock two tabs can send the same cookie; if the second request arrives after the grace window, it is
      answered as a reuse and the whole family, the first tab's new token included, is revoked. */
  lemma WithoutLockReuse(s: Store, raw: TokenId, device: string, nowMs: int, ms: nat, own: set<FamilyId>, c: Config)
    requires Families(s) && Refresh(s, raw, device, Seconds(nowMs), c).1.Rotated?
    requires Seconds(nowMs) + c.graceSeconds < Seconds(nowMs + ms) < s.tokens[raw].expiresAt
    ensures var w := UnlockedRun(TwoTabs(s, raw, nowMs, own, Idle, Idle), SlowAnswer(device, ms), c);
            && |w.tabs| == 2 && w.tabs[0].phase.Awaiting? && w.tabs[0].phase.outcome.Rotated?
            && w.tabs[1].phase == Awaiting(Reused) && RevokedFamily(w.store, s.tokens[raw].family)
            && Denied(w.store, w.tabs[0].phase.outcome.raw, device, Seconds(nowMs + ms), c)
  {
    SlowAnswerRun(s, raw, device, nowMs, ms, own, c);
    var s1 := Refresh(s, raw, device, Seconds(nowMs), c).0;
    RotationKeepsFamilies(s, raw, device, Seconds(nowMs), c);
    ReuseRevokesFamily(s1, raw, device, Seconds(nowMs + ms), c);
  }

  // ---------- What the broadcasts are for ----------

  /** The tab neither logs out nor sees a logout. */
  ghost predicate StaysLoggedIn(w: World, es: seq<Event>, i: nat, c: Config)
    decreases |es|
  {
    es != [] ==>
      && !(es[0] == LogOut(i))
      && !(es[0] == SeeBroadcast(i) && i < |w.tabs| && w.tabs[i].inbox != [] && !w.tabs[i].inbox[0])
      && StaysLoggedIn(Step(w, es[0], c), es[1..], i, c)
  }

  /** The tab has a token, set or seen since then. */
  predicate Supplied(w: World, i: nat, since: int) {
    i < |w.tabs| && w.tabs[i].hasToken && since <= w.tabs[i].lastRefreshedAt && since <= w.nowMs
  }

  lemma {:induction false} StaysSupplied(w: World, es: seq<Event>, i: nat, since: int, c: Config)
    requires Supplied(w, i, since) && StaysLoggedIn(w, es, i, c)
    ensures Supplied(RunWorld(w, es, c), i, since)
    decreases |es|
  {
    if es != [] {
      assert Supplied(Step(w, es[0], c), i, since);
      StaysSupplied(Step(w, es[0], c), es[1..], i, since, c);
    }
  }

  /** A tab that has seen a refresh of another tab makes no request for two seconds, however many of its calls get the
      lock, whatever else happens meanwhile, unless it logs out: a call that gets the lock lets it go and leaves server
      and cookie alone. */
  lemma BroadcastSparesRequest(w: World, i: nat, es: seq<Event>, device: string, c: Config)
    requires i < |w.tabs| && w.tabs[i].inbox != [] && w.tabs[i].inbox[0]
    requires StaysLoggedIn(Step(w, SeeBroadcast(i), c), es, i, c)
    ensures var v := RunWorld(Step(w, SeeBroadcast(i), c), es, c);
            var v' := Step(v, Proceed(i, device), c);
            i < |v.tabs| && v.tabs[i].phase.Locked? && v.nowMs < w.nowMs + RECENT_REFRESH_WINDOW_MS ==>
              v' == v.(tabs := v.tabs[i := v.tabs[i].(phase := Idle)])
  {
    StaysSupplied(Step(w, SeeBroadcast(i), c), es, i, w.nowMs, c);
  }

  // ---------- What a refresh and a logout achieve ----------

  lemma RunCons(w: World, e: Event, es: seq<Event>, c: Config)
    ensures RunWorld(w, [e] + es, c) == RunWorld(Step(w, e, c), es, c)
  {
    assert ([e] + es)[1..] == es;
  }

  /** The steps of a tab's call of refreshAccessToken. */
  function RefreshSteps(i: nat, device: string): seq<Event> {
    [NeedsToken(i)] + ([Grant(i)] + ([Proceed(i, device)] + ([Respond(i)] + [])))
  }

  /** With the lock free and no token of the last two seconds, a tab's call asks the server; if that gives access, the
      tab has a token, the new cookie is in place, and every other tab is told; if not, nothing else changes. */
  lemma TabRefreshes(w: World, i: nat, device: string, c: Config)
    requires i < |w.tabs| && LockFree(w) && MustRequest(w.tabs[i], w.nowMs)
    ensures var (store, outcome) := Request(w, device, c);
            var v := RunWorld(w, RefreshSteps(i, device), c);
            && v.store == store && |v.tabs| == |w.tabs| && LockFree(v)
            && v.cookie == (if outcome.Rotated? then Some(outcome.raw) else w.cookie)
            && (GivesAccess(outcome) ==> v.tabs[i].hasToken && v.tabs[i].lastRefreshedAt == w.nowMs)
            && forall k :: 0 <= k < |w.tabs| && (k != i || !GivesAccess(outcome)) ==>
                 v.tabs[k] == w.tabs[k].(inbox := w.tabs[k].inbox + if GivesAccess(outcome) then [true] else [])
  {
    var w1 := Step(w, NeedsToken(i), c);
    var w2 := Step(w1, Grant(i), c);
    var w3 := Step(w2, Proceed(i, device), c);
    RunCons(w, NeedsToken(i), [Grant(i)] + ([Proceed(i, device)] + ([Respond(i)] + [])), c);
    RunCons(w1, Grant(i), [Proceed(i, device)] + ([Respond(i)] + []), c);
    RunCons(w2, Proceed(i, device), [Respond(i)] + [], c);
    RunCons(w3, Respond(i), [], c);
    assert !HoldsLock(w.tabs[i]);
    assert LockFree(w1);
    assert w2.tabs == w.tabs[i := w.tabs[i].(phase := Locked)];
  }

  /** A login puts a cookie in place that rotates as long as it lives, and spares the tab requests for two seconds. */
  lemma LogInStarts(w: World, i: nat, user: UserId, device: string, other: string, now: int, c: Config)
    requires i < |w.tabs| && now < Seconds(w.nowMs) + c.ttlSeconds
    ensures var v := Step(w, LogIn(i, user, device), c);
            && v.cookie == Some(|w.store.tokens|) && |v.tabs| == |w.tabs|
            && Refresh(v.store, |w.store.tokens|, other, now, c).1 == Rotated(user, |v.store.tokens|)
            && forall ms :: MustRequest(v.tabs[i], ms) <==> ms >= w.nowMs + RECENT_REFRESH_WINDOW_MS
  {
  }

  function Drain(k: nat, n: nat): seq<Event> {
    if n == 0 then [] else [SeeBroadcast(k)] + Drain(k, n - 1)
  }

  /** Once a tab has seen all its broadcasts, the last one decides. */
  lemma {:induction false} LastBroadcastDecides(w: World, k: nat, c: Config)
    requires k < |w.tabs|
    ensures var inbox, v := w.tabs[k].inbox, RunWorld(w, Drain(k, |w.tabs[k].inbox|), c);
            && k < |v.tabs|
            && v.tabs[k].hasToken == if inbox == [] then w.tabs[k].hasToken else inbox[|inbox| - 1]
    decreases |w.tabs[k].inbox|
  {
    var n := |w.tabs[k].inbox|;
    if n > 0 {
      RunCons(w, SeeBroadcast(k), Drain(k, n - 1), c);
      LastBroadcastDecides(Step(w, SeeBroadcast(k), c), k, c);
    }
  }

  /** A logout revokes the cookie's family and drops cookie and token; every other tab has lost its token, too, as soon
      as it has seen what was sent to it. */
  lemma LogOutEverywhere(w: World, i: nat, k: nat, c: Config)
    requires i < |w.tabs| && k < |w.tabs|
    ensures var out := Step(w, LogOut(i), c);
            && out.cookie.None? && |out.tabs| == |w.tabs| && !out.tabs[i].hasToken
            && (w.cookie.Some? && w.cookie.value < |w.store.tokens| ==>
                  RevokedFamily(out.store, w.store.tokens[w.cookie.value].family))
            && (k != i ==>
                  var seen := RunWorld(out, Drain(k, |out.tabs[k].inbox|), c);
                  k < |seen.tabs| && !seen.tabs[k].hasToken)
  {
    LastBroadcastDecides(Step(w, LogOut(i), c), k, c);
    if w.cookie.Some? && w.cookie.value < |w.store.tokens| {
      LogoutRevokes(w.store, w.cookie.value, Seconds(w.nowMs));
    }
  }
}
