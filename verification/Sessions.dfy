/**
 Refresh-token rotation over the sessions table: families of tokens, a ten-second grace for
 lost responses, and revocation of a family on late reuse.  A token stands for its hash; new
 tokens and family ids come in as arguments and are assumed never used before.
 */
module Sessions {
  import opened Types

  const ACCESS_TTL := 15 * 60
  const REFRESH_TTL := 30 * 24 * 60 * 60
  const GRACE := 10

  /** A row of the table; `rotatedAt` is the first time the token was exchanged. */
  datatype Row = Row(player: int, family: int, rotated: bool, expires: int, rotatedAt: Option<int>)

  datatype Player = Player(username: string, epoch: int)

  datatype Claims = Claims(player: int, username: string, epoch: int, issued: int, expires: int)

  datatype Tokens = Tokens(access: Claims, refresh: string)

  datatype Outcome = Granted(tokens: Tokens) | Refused

  type Table = map<string, Row>

  /** The two tables, and the ids handed out so far. */
  datatype State = State(sessions: Table, players: map<int, Player>, tokens: set<string>, families: set<int>)

  function Access(s: State, player: int, epoch: int, now: int): Claims {
    Claims(player, if player in s.players then s.players[player].username else "", epoch, now, now + ACCESS_TTL)
  }

  function WithoutFamily(t: Table, family: int): Table {
    map k | k in t && t[k].family != family :: t[k]
  }

  function WithoutPlayer(t: Table, player: int): Table {
    map k | k in t && t[k].player != player :: t[k]
  }

  /** Every unrotated token of the family becomes a rotated one, first rotated now. */
  function Superseded(t: Table, family: int, now: int): Table {
    map k | k in t :: if t[k].family == family && !t[k].rotated then t[k].(rotated := true, rotatedAt := Some(now)) else t[k]
  }

  /** The rotated token may be presented again: the previous answer was probably lost. */
  predicate MayRetry(r: Row, now: int) {
    r.rotatedAt.Some? && r.rotatedAt.value > 0 && now >= r.rotatedAt.value && now - r.rotatedAt.value <= GRACE
  }

  predicate FreshIds(s: State, token: string, family: Option<int>) {
    token != "" && token !in s.tokens && (family.Some? ==> family.value !in s.families)
  }

  /** A login starts a family; a player the players table does not hold is refused by the database. */
  function Issued(s: State, player: int, epoch: int, token: string, family: int, now: int): State {
    var used := s.(tokens := s.tokens + {token}, families := s.families + {family});
    if player !in s.players then used
    else used.(sessions := s.sessions[token := Row(player, family, false, now + REFRESH_TTL, None)])
  }

  /** The presented token becomes a tripwire, keeping its first rotation time, and gets one successor. */
  function Rotated(t: Table, token: string, next: string, now: int): Table
    requires token in t
  {
    var row := t[token];
    var tripwire := row.(rotated := true, rotatedAt := if row.rotatedAt.Some? then row.rotatedAt else Some(now));
    t[token := tripwire][next := Row(row.player, row.family, false, now + REFRESH_TTL, None)]
  }

  /** How presenting a token ends. */
  datatype Verdict = Unknown | LateReuse | Expired | Orphan | Exchange

  function VerdictOn(s: State, token: string, now: int): Verdict {
    if token == "" || token !in s.sessions then Unknown
    else
      var row := s.sessions[token];
      if row.rotated && !MayRetry(row, now) then LateReuse
      else if row.expires <= now then Expired
      else if row.player !in s.players then Orphan
      else Exchange
  }

  function TableAfter(s: State, token: string, next: string, now: int): Table {
    var v := VerdictOn(s, token, now);
    if v.Unknown? || token !in s.sessions then s.sessions
    else
      var row := s.sessions[token];
      var t := if row.rotated && !v.LateReuse? then Superseded(s.sessions, row.family, now) else s.sessions;
      match v
      case Unknown => t
      case LateReuse => WithoutFamily(t, row.family)
      case Expired => t - {token}
      case Orphan => WithoutFamily(t, row.family)
      case Exchange => Rotated(t, token, next, now)
  }

  function Refreshed(s: State, token: string, next: string, now: int): State {
    s.(sessions := TableAfter(s, token, next, now), tokens := s.tokens + {next})
  }

  function LoggedOut(s: State, token: string): State {
    if token == "" || token !in s.sessions then s
    else s.(sessions := WithoutFamily(s.sessions, s.sessions[token].family))
  }

  function LoggedOutAll(s: State, player: int): State {
    var t := s.(sessions := WithoutPlayer(s.sessions, player));
    if player in s.players then t.(players := s.players[player := s.players[player].(epoch := s.players[player].epoch + 1)])
    else t
  }

  /** Deleting an account takes its sessions with it. */
  function Deleted(s: State, player: int): State {
    s.(sessions := WithoutPlayer(s.sessions, player), players := s.players - {player})
  }

  // ---------------------------------------------------------------- the store

  class SessionStore {
    var sessions: Table
    var players: map<int, Player>
    ghost var tokens: set<string>
    ghost var families: set<int>

    ghost function View(): State
      reads this
    {
      State(sessions, players, tokens, families)
    }

    method DeleteFamily(family: int)
      modifies this`sessions
      ensures sessions == WithoutFamily(old(sessions), family)
    {
      sessions := map k | k in sessions && sessions[k].family != family :: sessions[k];
    }

    method Supersede(family: int, now: int)
      modifies this`sessions
      ensures sessions == Superseded(old(sessions), family, now)
    {
      sessions := map k | k in sessions :: k :=
        if sessions[k].family == family && !sessions[k].rotated then sessions[k].(rotated := true, rotatedAt := Some(now))
        else sessions[k];
    }

    method IssueSession(player: int, epoch: int, token: string, family: int, now: int) returns (outcome: Outcome)
      requires FreshIds(View(), token, Some(family))
      modifies this
      ensures View() == Issued(old(View()), player, epoch, token, family, now)
      ensures outcome == if player in players then Granted(Tokens(Access(View(), player, epoch, now), token)) else Refused
    {
      tokens, families := tokens + {token}, families + {family};
      if player !in players {
        return Refused;
      }
      sessions := sessions[token := Row(player, family, false, now + REFRESH_TTL, None)];
      return Granted(Tokens(Claims(player, players[player].username, epoch, now, now + ACCESS_TTL), token));
    }

    method RefreshSession(token: string, next: string, now: int) returns (outcome: Outcome)
      requires FreshIds(View(), next, None)
      modifies this
      ensures View() == Refreshed(old(View()), token, next, now)
      ensures outcome == if VerdictOn(old(View()), token, now).Exchange?
        then var p := old(sessions)[token].player;
          Granted(Tokens(Access(old(View()), p, old(players)[p].epoch, now), next))
        else Refused
    {
      hide Superseded, WithoutFamily;
      tokens := tokens + {next};
      if token == "" || token !in sessions {
        return Refused;
      }
      var row := sessions[token];
      if row.rotated {
        if !MayRetry(row, now) {
          DeleteFamily(row.family);
          return Refused;
        }
        SupersededKeepsRotated(sessions, row.family, now, token);
        Supersede(row.family, now);
      }
      if row.expires <= now {
        sessions := sessions - {token};
        return Refused;
      }
      if row.player !in players {
        DeleteFamily(row.family);
        return Refused;
      }
      var player := players[row.player];
      var access := Claims(row.player, player.username, player.epoch, now, now + ACCESS_TTL);
      var first := if row.rotatedAt.Some? then row.rotatedAt else Some(now);
      sessions := sessions[token := row.(rotated := true, rotatedAt := first)];
      sessions := sessions[next := Row(row.player, row.family, false, now + REFRESH_TTL, None)];
      return Granted(Tokens(access, next));
    }

    method Logout(token: string)
      modifies this
      ensures View() == LoggedOut(old(View()), token)
    {
      if token != "" && token in sessions {
        DeleteFamily(sessions[token].family);
      }
    }

    /** Rows first, then the epoch. */
    method LogoutAll(player: int)
      modifies this
      ensures View() == LoggedOutAll(old(View()), player)
    {
      sessions := map k | k in sessions && sessions[k].player != player :: sessions[k];
      if player in players {
        players := players[player := players[player].(epoch := players[player].epoch + 1)];
      }
    }

    /** Whether verified claims still open the door: the player exists and the epoch is current. */
    method Authorize(c: Claims) returns (ok: bool)
      ensures ok <==> Admits(View(), c)
    {
      ok := c.player in players && players[c.player].epoch == c.epoch;
    }
  }

  predicate Admits(s: State, c: Claims) {
    c.player in s.players && s.players[c.player].epoch == c.epoch
  }

  lemma SupersededKeepsRotated(t: Table, family: int, now: int, token: string)
    requires token in t && t[token].rotated
    ensures token in Superseded(t, family, now) && Superseded(t, family, now)[token] == t[token]
  {
  }

  // ---------------------------------------------------------------- runs

  datatype Event =
    | Issue(player: int, epoch: int, token: string, family: int, now: int)
    | Refresh(token: string, next: string, now: int)
    | Logout(token: string)
    | LogoutAll(player: int)
    | Delete(player: int)

  function After(s: State, e: Event): State {
    match e
    case Issue(player, epoch, token, family, now) => Issued(s, player, epoch, token, family, now)
    case Refresh(token, next, now) => Refreshed(s, token, next, now)
    case Logout(token) => LoggedOut(s, token)
    case LogoutAll(player) => LoggedOutAll(s, player)
    case Delete(player) => Deleted(s, player)
  }

  /** The ids an operation mints were never used before. */
  predicate Minted(s: State, e: Event) {
    match e
    case Issue(_, _, token, family, _) => FreshIds(s, token, Some(family))
    case Refresh(_, next, _) => FreshIds(s, next, None)
    case _ => true
  }

  function Run(s: State, es: seq<Event>): State
    decreases |es|
  {
    if es == [] then s else Run(After(s, es[0]), es[1..])
  }

  predicate MintedRun(s: State, es: seq<Event>)
    decreases |es|
  {
    es == [] || (Minted(s, es[0]) && MintedRun(After(s, es[0]), es[1..]))
  }

  // ---------------------------------------------------------------- what every run keeps

  predicate Same(t: Table, a: string, b: string)
    requires a in t && b in t
  {
    t[a].family == t[b].family && !t[a].rotated && !t[b].rotated
  }

  predicate OneLive(t: Table) {
    forall a, b :: a in t && b in t && Same(t, a, b) ==> a == b
  }

  predicate RowSound(s: State, token: string, r: Row) {
    token != "" && token in s.tokens && r.family in s.families && (r.rotated <==> r.rotatedAt.Some?)
  }

  /** A family has at most one unrotated token; every row's ids were handed out. */
  predicate Sound(s: State) {
    OneLive(s.sessions) && forall k :: k in s.sessions ==> RowSound(s, k, s.sessions[k])
  }

  lemma SmallerTableIsSound(s: State, t: Table, s': State)
    requires Sound(s) && s.tokens <= s'.tokens && s.families <= s'.families && s'.sessions == t
    requires forall k :: k in t ==> k in s.sessions && t[k] == s.sessions[k]
    ensures Sound(s')
  {
    forall a, b | a in t && b in t && Same(t, a, b)
      ensures a == b
    {
      assert Same(s.sessions, a, b);
    }
    forall k | k in t
      ensures RowSound(s', k, t[k])
    {
      assert RowSound(s, k, s.sessions[k]);
    }
  }

  lemma IssuedIsSound(s: State, player: int, epoch: int, token: string, family: int, now: int)
    requires Sound(s) && FreshIds(s, token, Some(family))
    ensures Sound(Issued(s, player, epoch, token, family, now))
  {
    hide RowSound;
    var b := Issued(s, player, epoch, token, family, now);
    forall k | k in b.sessions
      ensures RowSound(b, k, b.sessions[k]) && (k in s.sessions ==> k != token && b.sessions[k].family != family)
    {
      IssuedRow(s, player, epoch, token, family, now, k);
    }
    forall x, y | x in b.sessions && y in b.sessions && Same(b.sessions, x, y)
      ensures x == y
    {
      if x in s.sessions && y in s.sessions {
        assert x != token && y != token;
        assert Same(s.sessions, x, y);
      }
    }
  }

  lemma IssuedRow(s: State, player: int, epoch: int, token: string, family: int, now: int, k: string)
    requires Sound(s) && FreshIds(s, token, Some(family))
    requires k in Issued(s, player, epoch, token, family, now).sessions
    ensures var b := Issued(s, player, epoch, token, family, now); RowSound(b, k, b.sessions[k])
    ensures k in s.sessions ==> k != token && s.sessions[k].family != family
  {
    if k in s.sessions {
      assert RowSound(s, k, s.sessions[k]);
    }
  }

  // ---- an exchange

  lemma SupersededHasNoLive(t: Table, family: int, now: int, k: string)
    requires k in t
    ensures var u := Superseded(t, family, now);
      k in u && u[k].family == t[k].family && u[k].player == t[k].player && u[k].expires == t[k].expires
      && (u[k].rotated <==> t[k].rotated || t[k].family == family)
      && (t[k].rotated ==> u[k] == t[k])
      && (!t[k].rotated && u[k].rotated ==> u[k].rotatedAt == Some(now))
      && (!t[k].rotated && !u[k].rotated ==> u[k] == t[k])
  {
  }

  /** What an exchange leaves under each token. */
  lemma ExchangedRow(s: State, token: string, next: string, now: int, k: string)
    requires Sound(s) && FreshIds(s, next, None) && VerdictOn(s, token, now).Exchange?
    requires k in TableAfter(s, token, next, now)
    ensures var t := TableAfter(s, token, next, now);
      var family := s.sessions[token].family;
      if k == next then t[k] == Row(s.sessions[token].player, family, false, now + REFRESH_TTL, None)
      else
        && k in s.sessions && t[k].family == s.sessions[k].family && t[k].player == s.sessions[k].player
        && (t[k].rotated <==> t[k].rotatedAt.Some?)
        && (t[k].family == family ==> t[k].rotated)
        && (!t[k].rotated ==> t[k] == s.sessions[k])
        && (s.sessions[k].rotatedAt.Some? ==> t[k].rotatedAt == s.sessions[k].rotatedAt)
  {
    hide Superseded;
    var row := s.sessions[token];
    assert RowSound(s, token, row);
    ExchangeKeys(s, token, next, now);
    SupersededHasNoLive(s.sessions, row.family, now, token);
    if k in s.sessions {
      assert RowSound(s, k, s.sessions[k]);
      SupersededHasNoLive(s.sessions, row.family, now, k);
      if s.sessions[k].family == row.family && !row.rotated && !s.sessions[k].rotated {
        assert Same(s.sessions, k, token);
      }
    }
  }

  lemma RefreshedIsSound(s: State, token: string, next: string, now: int)
    requires Sound(s) && FreshIds(s, next, None)
    ensures Sound(Refreshed(s, token, next, now))
  {
    hide Superseded, TableAfter;
    var b := Refreshed(s, token, next, now);
    if VerdictOn(s, token, now).Exchange? {
      assert RowSound(s, token, s.sessions[token]);
      forall k | k in b.sessions
        ensures RowSound(b, k, b.sessions[k])
      {
        ExchangedRow(s, token, next, now, k);
        assert k in s.sessions ==> RowSound(s, k, s.sessions[k]);
      }
      forall x, y | x in b.sessions && y in b.sessions && Same(b.sessions, x, y)
        ensures x == y
      {
        ExchangedRow(s, token, next, now, x);
        ExchangedRow(s, token, next, now, y);
        if x != next && y != next {
          assert Same(s.sessions, x, y);
        }
      }
    } else {
      forall k | k in b.sessions
        ensures k in s.sessions && RowSound(b, k, b.sessions[k])
      {
        RefusedRow(s, token, next, now, k);
        assert RowSound(s, k, s.sessions[k]);
      }
      forall x, y | x in b.sessions && y in b.sessions && Same(b.sessions, x, y)
        ensures x == y
      {
        RefusedRow(s, token, next, now, x);
        RefusedRow(s, token, next, now, y);
        assert Same(s.sessions, x, y);
      }
    }
  }

  /** A refusal adds no row, and can only turn live rows of the family into tripwires. */
  lemma RefusedRow(s: State, token: string, next: string, now: int, k: string)
    requires Sound(s) && !VerdictOn(s, token, now).Exchange?
    requires k in TableAfter(s, token, next, now)
    ensures var t := TableAfter(s, token, next, now);
      && k in s.sessions && t[k].family == s.sessions[k].family && t[k].player == s.sessions[k].player
      && (t[k].rotated <==> t[k].rotatedAt.Some?)
      && (!t[k].rotated ==> t[k] == s.sessions[k])
      && (s.sessions[k].rotatedAt.Some? ==> t[k].rotatedAt == s.sessions[k].rotatedAt)
      && (VerdictOn(s, token, now).LateReuse? ==> t[k].family != s.sessions[token].family)
  {
    hide Superseded;
    if k in s.sessions {
      assert RowSound(s, k, s.sessions[k]);
    }
    if token in s.sessions {
      var u := Superseded(s.sessions, s.sessions[token].family, now);
      forall x | x in s.sessions {
        SupersededHasNoLive(s.sessions, s.sessions[token].family, now, x);
      }
      SupersededKeys(s.sessions, s.sessions[token].family, now);
      assert RowSound(s, k, s.sessions[k]);
    }
  }

  lemma SupersededKeys(t: Table, family: int, now: int)
    ensures Superseded(t, family, now).Keys == t.Keys
  {
  }

  lemma StepIsSound(s: State, e: Event)
    requires Sound(s) && Minted(s, e)
    ensures Sound(After(s, e))
  {
    hide Sound, TableAfter;
    match e
    case Issue(player, epoch, token, family, now) => IssuedIsSound(s, player, epoch, token, family, now);
    case Refresh(token, next, now) => RefreshedIsSound(s, token, next, now);
    case _ => SmallerTableIsSound(s, After(s, e).sessions, After(s, e));
  }

  /** Over every run a family has at most one unrotated token. */
  lemma {:induction false} RunIsSound(s: State, es: seq<Event>)
    requires Sound(s) && MintedRun(s, es)
    ensures Sound(Run(s, es))
    decreases |es|
  {
    hide Sound, After, Minted;
    if es != [] {
      StepIsSound(s, es[0]);
      RunIsSound(After(s, es[0]), es[1..]);
    }
  }

  /** An exchange leaves the new token as the only unrotated one of the family. */
  lemma ExchangeLeavesOnlySuccessor(s: State, token: string, next: string, now: int)
    requires Sound(s) && FreshIds(s, next, None) && VerdictOn(s, token, now).Exchange?
    ensures var t := Refreshed(s, token, next, now).sessions;
      && next in t && token in t && t[token].rotated
      && t[next] == Row(s.sessions[token].player, s.sessions[token].family, false, now + REFRESH_TTL, None)
      && forall k :: k in t && t[k].family == t[next].family && !t[k].rotated ==> k == next
  {
    var t := Refreshed(s, token, next, now).sessions;
    assert RowSound(s, token, s.sessions[token]);
    ExchangeKeys(s, token, next, now);
    hide TableAfter, VerdictOn;
    ExchangedRow(s, token, next, now, next);
    ExchangedRow(s, token, next, now, token);
    forall k | k in t && t[k].family == t[next].family && !t[k].rotated
      ensures k == next
    {
      ExchangedRow(s, token, next, now, k);
    }
  }

  /** The family still has a token that was never exchanged. */
  ghost predicate HasLive(t: Table, family: int) {
    exists k :: k in t && t[k].family == family && !t[k].rotated
  }

  /**
   After a known token has been presented its family has an unrotated token exactly when an
   exchange was made; every refusal, the one of an expired token in its grace included, leaves
   the family without one.
   */
  lemma LiveIffExchanged(s: State, token: string, next: string, now: int)
    requires Sound(s) && FreshIds(s, next, None) && token in s.sessions
    ensures HasLive(Refreshed(s, token, next, now).sessions, s.sessions[token].family) <==> VerdictOn(s, token, now).Exchange?
  {
    var row := s.sessions[token];
    var t := Refreshed(s, token, next, now).sessions;
    assert RowSound(s, token, row);
    if VerdictOn(s, token, now).Exchange? {
      ExchangeLeavesOnlySuccessor(s, token, next, now);
      assert t[next].family == row.family && !t[next].rotated;
    } else {
      forall k | k in t && t[k].family == row.family
        ensures t[k].rotated
      {
        RefusedLeavesNoLive(s, token, next, now, k);
      }
    }
  }

  lemma RefusedLeavesNoLive(s: State, token: string, next: string, now: int, k: string)
    requires Sound(s) && token in s.sessions && !VerdictOn(s, token, now).Exchange?
    requires k in TableAfter(s, token, next, now) && TableAfter(s, token, next, now)[k].family == s.sessions[token].family
    ensures TableAfter(s, token, next, now)[k].rotated
  {
    hide Superseded;
    var row := s.sessions[token];
    RefusedRow(s, token, next, now, k);
    assert RowSound(s, token, row);
    SupersededHasNoLive(s.sessions, row.family, now, k);
    assert !row.rotated && !s.sessions[k].rotated ==> Same(s.sessions, token, k);
  }

  /** A token past its month, exchanged moments ago, is retried in its grace: its successor is alive before and superseded after. */
  lemma ExpiredRetryLeavesNone() returns (s: State, now: int)
    ensures Sound(s) && "a" in s.sessions && FreshIds(s, "c", None)
    ensures VerdictOn(s, "a", now).Expired? && MayRetry(s.sessions["a"], now)
    ensures HasLive(s.sessions, s.sessions["a"].family)
    ensures !HasLive(Refreshed(s, "a", "c", now).sessions, s.sessions["a"].family)
  {
    now := 105;
    var presented := Row(1, 1, true, 101, Some(100));
    var successor := Row(1, 1, false, 100 + REFRESH_TTL, None);
    s := State(map["a" := presented, "b" := successor], map[1 := Player("p", 0)], {"a", "b"}, {1});
    assert s.sessions["b"] == successor && s.sessions["a"] == presented;
    LiveIffExchanged(s, "a", "c", now);
  }

  lemma ExchangeKeys(s: State, token: string, next: string, now: int)
    requires VerdictOn(s, token, now).Exchange?
    ensures TableAfter(s, token, next, now).Keys == s.sessions.Keys + {next}
  {
    hide Superseded;
    SupersededKeys(s.sessions, s.sessions[token].family, now);
  }

  // ---------------------------------------------------------------- the first rotation time stands

  lemma StepKeepsFirstRotation(s: State, e: Event, k: string)
    requires Sound(s) && Minted(s, e) && k in s.sessions && s.sessions[k].rotatedAt.Some? && k in After(s, e).sessions
    ensures After(s, e).sessions[k].rotatedAt == s.sessions[k].rotatedAt
  {
    hide TableAfter;
    assert RowSound(s, k, s.sessions[k]);
    if e.Refresh? {
      if VerdictOn(s, e.token, e.now).Exchange? {
        ExchangedRow(s, e.token, e.next, e.now, k);
      } else {
        RefusedRow(s, e.token, e.next, e.now, k);
      }
    }
  }

  /** A token that is gone stays gone: new tokens never repeat an old one. */
  lemma StepKeepsGone(s: State, e: Event, k: string)
    requires Sound(s) && Minted(s, e) && k in s.tokens && k !in s.sessions
    ensures k in After(s, e).tokens && k !in After(s, e).sessions
  {
    hide TableAfter;
    if e.Refresh? {
      if VerdictOn(s, e.token, e.now).Exchange? {
        ExchangeKeys(s, e.token, e.next, e.now);
      } else if k in After(s, e).sessions {
        RefusedRow(s, e.token, e.next, e.now, k);
      }
    }
  }

  lemma {:induction false} GoneStaysGone(s: State, es: seq<Event>, k: string)
    requires Sound(s) && MintedRun(s, es) && k in s.tokens && k !in s.sessions
    ensures k !in Run(s, es).sessions
    decreases |es|
  {
    hide Sound, After, Minted;
    if es != [] {
      StepIsSound(s, es[0]);
      StepKeepsGone(s, es[0], k);
      GoneStaysGone(After(s, es[0]), es[1..], k);
    }
  }

  /** Whatever happens later, retries included, the time of the first rotation is never moved. */
  lemma {:induction false} FirstRotationStands(s: State, es: seq<Event>, k: string)
    requires Sound(s) && MintedRun(s, es) && k in s.sessions && s.sessions[k].rotatedAt.Some?
    requires k in Run(s, es).sessions
    ensures Run(s, es).sessions[k].rotatedAt == s.sessions[k].rotatedAt
    decreases |es|
  {
    hide Sound, After, Minted, RowSound;
    if es != [] {
      StepIsSound(s, es[0]);
      var b := After(s, es[0]);
      TokensInTable(s, k);
      if k in b.sessions {
        StepKeepsFirstRotation(s, es[0], k);
      } else {
        TokensOnlyGrow(s, es[0]);
        GoneStaysGone(b, es[1..], k);
      }
      FirstRotationStands(b, es[1..], k);
    }
  }

  lemma TokensInTable(s: State, k: string)
    requires Sound(s) && k in s.sessions
    ensures k in s.tokens
  {
    assert RowSound(s, k, s.sessions[k]);
  }

  lemma TokensOnlyGrow(s: State, e: Event)
    ensures s.tokens <= After(s, e).tokens
  {
  }

  /** A token first exchanged at `t` is never exchanged again later than the grace after `t`. */
  lemma GraceIsNeverExtended(s: State, es: seq<Event>, k: string, next: string, now: int)
    requires Sound(s) && MintedRun(s, es) && k in s.sessions && s.sessions[k].rotatedAt.Some?
    requires VerdictOn(Run(s, es), k, now).Exchange?
    ensures s.sessions[k].rotatedAt.value <= now <= s.sessions[k].rotatedAt.value + GRACE
  {
    hide Sound, Run, RowSound;
    FirstRotationStands(s, es, k);
    RunIsSound(s, es);
    RotatedRow(Run(s, es), k);
  }

  lemma RotatedRow(s: State, k: string)
    requires Sound(s) && k in s.sessions
    ensures s.sessions[k].rotated <==> s.sessions[k].rotatedAt.Some?
  {
    assert RowSound(s, k, s.sessions[k]);
  }

  // ---------------------------------------------------------------- revocation is final

  /** After late reuse no token of the family, old or new, is ever exchanged again. */
  lemma LateReuseKillsFamily(s: State, token: string, next: string, now: int, es: seq<Event>, k: string, later: int)
    requires Sound(s) && FreshIds(s, next, None) && VerdictOn(s, token, now).LateReuse?
    requires MintedRun(Refreshed(s, token, next, now), es)
    requires k in s.sessions && s.sessions[k].family == s.sessions[token].family
    ensures VerdictOn(Run(Refreshed(s, token, next, now), es), k, later).Unknown?
  {
    hide Sound, Run, TableAfter;
    var b := Refreshed(s, token, next, now);
    RefreshedIsSound(s, token, next, now);
    TokensInTable(s, k);
    if k in b.sessions {
      RefusedRow(s, token, next, now, k);
    }
    GoneStaysGone(b, es, k);
  }

  predicate NoRowOf(s: State, family: int) {
    family in s.families && forall k :: k in s.sessions ==> s.sessions[k].family != family
  }

  lemma StepKeepsFamilyDead(s: State, e: Event, family: int)
    requires Sound(s) && Minted(s, e) && NoRowOf(s, family)
    ensures NoRowOf(After(s, e), family)
  {
    hide TableAfter;
    if e.Refresh? {
      forall k | k in After(s, e).sessions
        ensures After(s, e).sessions[k].family != family
      {
        if VerdictOn(s, e.token, e.now).Exchange? {
          ExchangedRow(s, e.token, e.next, e.now, k);
        } else {
          RefusedRow(s, e.token, e.next, e.now, k);
        }
      }
    }
  }

  /** A family that has lost its last row never gets another. */
  lemma {:induction false} DeadFamilyStaysDead(s: State, es: seq<Event>, family: int)
    requires Sound(s) && MintedRun(s, es) && NoRowOf(s, family)
    ensures NoRowOf(Run(s, es), family)
    decreases |es|
  {
    hide Sound, After, Minted, NoRowOf;
    if es != [] {
      StepIsSound(s, es[0]);
      StepKeepsFamilyDead(s, es[0], family);
      DeadFamilyStaysDead(After(s, es[0]), es[1..], family);
    }
  }

  /** The same after a logout, of the whole family. */
  lemma LogoutKillsFamily(s: State, token: string, es: seq<Event>, k: string, later: int)
    requires Sound(s) && token != "" && token in s.sessions && MintedRun(LoggedOut(s, token), es)
    requires k in s.sessions && s.sessions[k].family == s.sessions[token].family
    ensures VerdictOn(Run(LoggedOut(s, token), es), k, later).Unknown?
  {
    hide Sound, Run;
    var b := LoggedOut(s, token);
    StepIsSound(s, Logout(token));
    TokensInTable(s, k);
    GoneStaysGone(b, es, k);
  }

  lemma EpochsOnlyGrow(s: State, e: Event, player: int)
    ensures player in After(s, e).players ==> player in s.players && s.players[player].epoch <= After(s, e).players[player].epoch
  {
  }

  lemma {:induction false} OldEpochStaysOut(s: State, es: seq<Event>, c: Claims)
    requires c.player in s.players ==> c.epoch < s.players[c.player].epoch
    ensures !Admits(Run(s, es), c)
    decreases |es|
  {
    hide After;
    if es != [] {
      EpochsOnlyGrow(s, es[0], c.player);
      OldEpochStaysOut(After(s, es[0]), es[1..], c);
    }
  }

  /** Signing out everywhere: no refresh token and no access token of the player works ever again. */
  lemma LogoutAllIsFinal(s: State, player: int, es: seq<Event>, k: string, c: Claims, later: int)
    requires Sound(s) && MintedRun(LoggedOutAll(s, player), es)
    ensures k in s.sessions && s.sessions[k].player == player ==>
      VerdictOn(Run(LoggedOutAll(s, player), es), k, later).Unknown?
    ensures c.player == player && (player in s.players ==> c.epoch <= s.players[player].epoch) ==>
      !Admits(Run(LoggedOutAll(s, player), es), c)
  {
    hide Sound, Run;
    var b := LoggedOutAll(s, player);
    StepIsSound(s, LogoutAll(player));
    if k in s.sessions && s.sessions[k].player == player {
      TokensInTable(s, k);
      GoneStaysGone(b, es, k);
    }
    if c.player == player && (player in s.players ==> c.epoch <= s.players[player].epoch) {
      OldEpochStaysOut(b, es, c);
    }
  }

  // ---------------------------------------------------------------- tokens work while they should

  /** A token works from its issue for thirty days, and then no more. */
  lemma IssuedTokenWorks(s: State, player: int, epoch: int, token: string, family: int, at: int, now: int)
    requires FreshIds(s, token, Some(family)) && player in s.players
    ensures VerdictOn(Issued(s, player, epoch, token, family, at), token, now) ==
      if now < at + REFRESH_TTL then Exchange else Expired
  {
  }

  /** And so does the successor an exchange puts in its place. */
  lemma SuccessorWorks(s: State, token: string, next: string, at: int, now: int)
    requires Sound(s) && FreshIds(s, next, None) && VerdictOn(s, token, at).Exchange?
    ensures VerdictOn(Refreshed(s, token, next, at), next, now) == if now < at + REFRESH_TTL then Exchange else Expired
  {
    hide TableAfter, Sound;
    ExchangeLeavesOnlySuccessor(s, token, next, at);
  }

  /** A token just exchanged for the first time works again exactly within the grace, and while it is itself unexpired. */
  lemma RetryWorksInGrace(s: State, token: string, next: string, at: int, now: int)
    requires Sound(s) && FreshIds(s, next, None) && VerdictOn(s, token, at).Exchange?
    requires !s.sessions[token].rotated && at > 0
    ensures VerdictOn(Refreshed(s, token, next, at), token, now).Exchange? <==>
      at <= now <= at + GRACE && now < s.sessions[token].expires
  {
    assert RowSound(s, token, s.sessions[token]);
    assert token != next;
  }

  /** The access token that comes with a grant is admitted at once. */
  lemma GrantedAccessIsAdmitted(s: State, player: int, now: int)
    requires player in s.players
    ensures Admits(s, Access(s, player, s.players[player].epoch, now))
    ensures !Admits(LoggedOutAll(s, player), Access(s, player, s.players[player].epoch, now))
  {
  }
}
