/** What every run of a game room keeps: safety, endings, completion calls and clocks. */
module RoomRuns {
  import opened Types
  import opened Rules
  import opened Reversal
  import opened Invariant
  import opened MoveGen
  import opened San
  import opened Room
  import opened Text
  import opened Uci

  datatype Event =
    | Join(player: int, fd: int, dbId: int, now: int)
    | Bind(dbId: int, player: int, fd: int, replace: bool, generation: nat, now: int)
    | Allow(dbId: int)
    | Open(now: int)
    | Submit(fd: int, from: Square, to: Square, promo: Option<Kind>, t: Readings)
    | SubmitAi(from: Square, to: Square, promo: Option<Kind>, t: Readings)
    | Resign(fd: int, callback: bool)
    | OfferDraw(fd: int, now: int)
    | AnswerDraw(fd: int, accept: bool)
    | ExpireDraw(ttl: int, now: int)
    | OfferRematch(fd: int, now: int)
    | AnswerRematch(fd: int)
    | ExpireRematch(ttl: int, now: int)
    | ExpireOnTime(now: int)
    | Disconnect(fd: int, now: int)
    | Reconnect(dbId: int, fd: int, generation: nat, now: int)
    | ExpireDisconnected(grace: int, now: int)
    | AddListener(listener: int)
    | RemoveListener(listener: int)
    | AddSpectator(fd: int)
    | RemoveSpectator(fd: int)

  ghost function After(r: State, e: Event): State {
    match e
    case Join(player, fd, dbId, now) => Joined(r, player, fd, dbId, now)
    case Bind(dbId, player, fd, replace, generation, now) => Bound(r, dbId, player, fd, replace, generation, now)
    case Allow(dbId) => Allowed(r, dbId)
    case Open(now) => Opened(r, now)
    case Submit(fd, from, to, promo, t) => Submitted(r, fd, from, to, promo, t)
    case SubmitAi(from, to, promo, t) => AiSubmitted(r, from, to, promo, t)
    case Resign(fd, callback) => Resigned(r, fd, callback)
    case OfferDraw(fd, now) => DrawOffered(r, fd, now)
    case AnswerDraw(fd, accept) => DrawAnswered(r, fd, accept)
    case ExpireDraw(ttl, now) => DrawExpired(r, ttl, now)
    case OfferRematch(fd, now) => RematchOffered(r, fd, now)
    case AnswerRematch(fd) => RematchAnswered(r, fd)
    case ExpireRematch(ttl, now) => RematchExpired(r, ttl, now)
    case ExpireOnTime(now) => TimeExpired(r, now)
    case Disconnect(fd, now) => Disconnected(r, fd, now)
    case Reconnect(dbId, fd, generation, now) => Reconnected(r, dbId, fd, generation, now)
    case ExpireDisconnected(grace, now) => Abandoned(r, grace, now)
    case AddListener(l) => ListenerAdded(r, l)
    case RemoveListener(l) => ListenerRemoved(r, l)
    case AddSpectator(fd) => SpectatorAdded(r, fd)
    case RemoveSpectator(fd) => SpectatorRemoved(r, fd)
  }

  ghost function Run(r: State, es: seq<Event>): State {
    if es == [] then r else After(Run(r, es[..|es| - 1]), es[|es| - 1])
  }

  /** A room as one of the three constructors leaves it. */
  ghost predicate Fresh(r: State) {
    || (exists player, fd, dbId :: r == NewRoom(r.config.base, r.config.increment, player, fd, dbId))
    || (exists player, fd, dbId, now :: r == NewAiRoom(r.config.base, r.config.increment, player, fd, dbId, now))
    || (exists whiteDb, blackDb :: r == NewReservedRoom(r.config.base, r.config.increment, whiteDb, blackDb))
  }

  // ---------------------------------------------------------------- the invariant

  function Moves(h: seq<Record>): (ms: seq<Move>)
    ensures |ms| == |h|
  {
    seq(|h|, i requires 0 <= i < |h| => h[i].move)
  }

  /** The board is the recorded game replayed, every recorded move was legal when made. */
  ghost predicate FollowsHistory(r: State) {
    LegalLine(START, Moves(r.game.history)) && r.game.position == Replay(START, Moves(r.game.history))
  }

  /** A final status comes with the result it entails. */
  ghost predicate Verdict(r: State) {
    match r.game.status
    case Checkmate => StatusOf(r.game.position) == r.game.status && r.game.result == WinFor(Opposite(r.game.position.side))
    case Stalemate => StatusOf(r.game.position) == r.game.status && r.game.result == Drawn
    case DrawFiftyMove => StatusOf(r.game.position) == r.game.status && r.game.result == Drawn
    case Timeout => r.game.result == WinFor(Opposite(r.game.position.side))
    case DrawAgreement => r.game.result == Drawn && !r.config.isAi
    case Resignation => r.game.result != Drawn && (r.game.result == Undecided ==> r.game.history == [])
    case Abandonment => r.game.result != Undecided
    case _ => false
  }

  /** A live game has no result and its side to move can move; a finished one has a verdict. */
  ghost predicate Settled(r: State) {
    match r.game.phase
    case Waiting => r.game.history == [] && r.game.status == Ongoing && r.game.result == Undecided
    case InProgress => r.game.status == Ongoing && r.game.result == Undecided && StatusOf(r.game.position) == Ongoing
    case Finished => Verdict(r)
  }

  /** Reserved seats connect only after check-in, and an open room with both connected has started. */
  predicate SeatsSound(r: State) {
    && (r.config.reserved ==>
          && (r.white.connected ==> r.white.checkedIn)
          && (r.black.connected ==> r.black.checkedIn)
          && (r.game.phase == Waiting && r.reservedOpen ==> !BothConnected(r))
          && (r.game.phase != Waiting ==> r.reservedOpen && r.white.checkedIn && r.black.checkedIn))
    && (r.config.isAi ==> !r.config.reserved && r.game.phase != Waiting)
  }

  predicate OffersSound(r: State) {
    && (r.drawOffer.Some? ==> !r.config.isAi && r.game.phase != Waiting)
    && (r.rematchOffer.Some? ==> !r.config.isAi && !r.config.reserved && r.game.phase == Finished)
  }

  ghost predicate Sound(r: State) {
    FollowsHistory(r) && Settled(r) && SeatsSound(r) && OffersSound(r)
  }

  /** White can open with a2-a3. */
  const OPENING := Move(8, 16, PLAIN, None)

  lemma OpeningSquares(x: Square)
    ensures Apply(START, OPENING).squares[x] ==
      if x == 8 then Empty else if x == 16 then Man(White, Pawn) else StartPiece(x)
  {
  }

  lemma OpeningIsSafe(b: Placement)
    requires forall x: Square :: b[x] == if x == 8 then Empty else if x == 16 then Man(White, Pawn) else StartPiece(x)
    ensures !InCheck(b, White)
  {
    hide FindKing;
    FoundKingIsFirst(b);
    assert forall x: Square :: b[x].Man? && b[x].color == Black ==> !Attacks(b, x, E1);
  }

  lemma OpeningIsLegal()
    ensures Legal(START, OPENING)
  {
    hide InCheck, Apply;
    assert PieceMove(START, 8, White, OPENING);
    forall x: Square {
      OpeningSquares(x);
    }
    OpeningIsSafe(Apply(START, OPENING).squares);
  }

  lemma StartIsOngoing()
    ensures StatusOf(START) == Ongoing
  {
    hide Legal, InCheck;
    OpeningIsLegal();
  }

  lemma FoundKingIsFirst(b: Placement)
    requires forall s: Square :: b[s] == Man(White, King) <==> s == E1
    ensures FindKing(b, White) == E1
  {
  }

  lemma FreshIsSound(r: State)
    requires Fresh(r)
    ensures Sound(r)
  {
    hide StatusOf;
    StartIsOngoing();
  }

  // ---------------------------------------------------------------- the four kinds of step

  /** The completion calls made when `a` finished as `b`: one per listener registered in `a`, in order. */
  predicate Told(a: State, b: State) {
    && b.sent.starts == a.sent.starts
    && (|| b.sent.calls == a.sent.calls + Announce(a.listeners, SnapshotOf(b))
        || b.sent.calls == a.sent.calls + [Committed] + Announce(a.listeners, SnapshotOf(b)))
  }

  predicate Quiet(a: State, b: State) {
    b.config == a.config && b.game == a.game && b.sent == a.sent
  }

  predicate Begins(a: State, b: State) {
    && b.config == a.config && b.revision > a.revision
    && a.game.phase == Waiting && b.game == a.game.(phase := InProgress)
    && b.sent == a.sent.(starts := a.sent.starts + a.listeners)
  }

  /** Finished by something other than a move. */
  ghost predicate Ends(a: State, b: State) {
    && b.config == a.config && b.revision > a.revision
    && a.game.phase != Finished
    && b.game == a.game.(phase := Finished, status := b.game.status, result := b.game.result)
    && Verdict(b) && Told(a, b)
  }

  /** The move, its text, and what follows from the position it leads to. */
  ghost predicate Plays(a: State, b: State, m: Move) {
    && b.config == a.config && b.revision > a.revision
    && a.game.phase == InProgress && Legal(a.game.position, m)
    && b.game.position == Apply(a.game.position, m)
    && |b.game.history| == |a.game.history| + 1 && b.game.history[..|a.game.history|] == a.game.history
    && b.game.history[|a.game.history|].move == m
    && b.game.history[|a.game.history|].san == SanText(a.game.position, m)
    && (if StatusOf(b.game.position) == Ongoing
        then b.game.phase == InProgress && b.game.status == a.game.status && b.game.result == a.game.result && b.sent == a.sent
        else b.game.phase == Finished && b.game.status == StatusOf(b.game.position) && Verdict(b) && Told(a, b))
  }

  /** What one operation may do to a room. */
  ghost predicate Step(a: State, b: State) {
    && a.revision <= b.revision
    && (Quiet(a, b) || Begins(a, b) || Ends(a, b) || exists m :: Plays(a, b, m))
  }

  ghost predicate Good(a: State, b: State) {
    Step(a, b) && SeatsSound(b) && OffersSound(b)
  }

  lemma OnlyBoardStatuses(p: Position)
    ensures StatusOf(p) in {Ongoing, Checkmate, Stalemate, DrawFiftyMove}
  {
  }

  lemma FinishTells(a: State, r: State, status: GameStatus, result: Result, callback: bool)
    requires a.sent == r.sent && a.listeners == r.listeners
    ensures Told(a, Finish(r, status, result, callback))
  {
  }

  /** `Finish` settles the outcome and touches nothing else of the room. */
  lemma FinishFields(r: State, status: GameStatus, result: Result, callback: bool)
    ensures var b := Finish(r, status, result, callback);
      b == r.(game := r.game.(phase := Finished, status := status, result := result), sent := b.sent)
  {
  }

  /** Stopping and starting clocks touches nothing but the two clocks. */
  lemma SwitchFields(r: State, mover: Color, now: int)
    ensures var b := SwitchClock(r, mover, now);
      b == r.(white := b.white, black := b.black)
      && b.white.connected == r.white.connected && b.white.checkedIn == r.white.checkedIn
      && b.black.connected == r.black.connected && b.black.checkedIn == r.black.checkedIn
  {
  }

  lemma RecordedFields(r: State, m: Move, t: Readings)
    ensures var b := Recorded(r, m, t);
      b == r.(game := r.game.(position := Apply(r.game.position, m), history := b.game.history))
      && |b.game.history| == |r.game.history| + 1 && b.game.history[..|r.game.history|] == r.game.history
      && b.game.history[|r.game.history|].move == m && b.game.history[|r.game.history|].san == SanText(r.game.position, m)
  {
    hide Apply, SanText;
  }

  lemma PlayedIsStep(a: State, r: State, m: Move, t: Readings)
    requires Quiet(a, r) && r.revision > a.revision && r.listeners == a.listeners
    requires Sound(a) && SeatsSound(r) && OffersSound(r)
    requires a.game.phase == InProgress && Legal(a.game.position, m)
    ensures Good(a, Played(r, m, t)) && Plays(a, Played(r, m, t), m)
  {
    hide Apply, Legal, StatusOf, SanText, Elapsed, FollowsHistory, Finish, Told, Announce, SwitchClock, Recorded;
    OnlyBoardStatuses(Apply(r.game.position, m));
    var next := Recorded(r, m, t);
    RecordedFields(r, m, t);
    var clocked := SwitchClock(next, r.game.position.side, t.stop);
    var status := StatusOf(next.game.position);
    var result := BoardResult(status, next.game.position.side);
    SwitchFields(next, r.game.position.side, t.stop);
    FinishTells(a, clocked, status, result, false);
    FinishFields(clocked, status, result, false);
    assert Plays(a, Played(r, m, t), m);
  }

  /** Finishing a live room by anything but a move. */
  lemma EndIsStep(a: State, r: State, status: GameStatus, result: Result, callback: bool)
    requires Quiet(a, r) && r.listeners == a.listeners && r.revision > a.revision && a.game.phase != Finished
    requires var b := r.(game := r.game.(phase := Finished, status := status, result := result));
      Verdict(b) && SeatsSound(b) && OffersSound(b)
    ensures Good(a, Finish(r, status, result, callback))
  {
    hide StatusOf, Finish, Told, Announce;
    FinishTells(a, r, status, result, callback);
    FinishFields(r, status, result, callback);
  }

  // ---------------------------------------------------------------- every operation is such a step

  lemma QuietIsGood(a: State, b: State)
    requires Quiet(a, b) && SeatsSound(b) && OffersSound(b) && b.revision >= a.revision
    ensures Good(a, b)
  {
  }

  lemma SubmitIsStep(r: State, fd: int, from: Square, to: Square, promo: Option<Kind>, t: Readings)
    requires Sound(r)
    ensures Good(r, Submitted(r, fd, from, to, promo, t))
  {
    hide Played, Legal, StatusOf, FollowsHistory, Flagged, Asked, Finish, Good, Chosen, ColorOf;
    var b := Bump(r);
    ChosenIsLegal(b.game.position, from, to, promo);
    match MoveRefusal(b, fd, from, to, promo, t)
    case Some(OutOfTime) => EndIsStep(r, b, Timeout, WinFor(Opposite(b.game.position.side)), false);
    case Some(_) => QuietIsGood(r, b);
    case None => PlayedIsStep(r, Declined(b, b.game.position.side), Chosen(b.game.position, from, to, promo).value, t);
  }

  lemma AiSubmitIsStep(r: State, from: Square, to: Square, promo: Option<Kind>, t: Readings)
    requires Sound(r)
    ensures Good(r, AiSubmitted(r, from, to, promo, t))
  {
    hide Played, Legal, StatusOf, FollowsHistory, Flagged, Asked, Finish, Good, Chosen;
    var b := Bump(r);
    ChosenIsLegal(b.game.position, from, to, promo);
    match AiMoveRefusal(b, from, to, promo, t)
    case Some(OutOfTime) => EndIsStep(r, WithSeat(b, Black, b.black.(remaining := 0)), Timeout, WhiteWins, false);
    case Some(_) => QuietIsGood(r, b);
    case None => PlayedIsStep(r, b, Chosen(b.game.position, from, to, promo).value, t);
  }

  lemma ResignIsStep(r: State, fd: int, callback: bool)
    requires Sound(r)
    ensures Good(r, Resigned(r, fd, callback))
  {
    hide StatusOf, FollowsHistory, Finish, Good, ColorOf;
    var b := Bump(r);
    if MayResign(b, fd) {
      EndIsStep(r, b, Resignation, WinFor(Opposite(ColorOf(b, fd).value)), callback);
    } else {
      QuietIsGood(r, b);
    }
  }

  lemma DrawAnswerIsStep(r: State, fd: int, accept: bool)
    requires Sound(r)
    ensures Good(r, DrawAnswered(r, fd, accept))
  {
    hide StatusOf, FollowsHistory, Finish, Good, ColorOf;
    var cleared := Bump(r).(drawOffer := None);
    if DrawAnswerRefusal(r, fd).Some? {
      QuietIsGood(r, r);
    } else if accept {
      EndIsStep(r, cleared, DrawAgreement, Drawn, false);
    } else {
      QuietIsGood(r, cleared);
    }
  }

  lemma TimeExpiryIsStep(r: State, now: int)
    requires Sound(r)
    ensures Good(r, TimeExpired(r, now))
  {
    hide StatusOf, FollowsHistory, Finish, Good, Elapsed;
    var side := r.game.position.side;
    if Flagged(r, now) {
      var stopped := WithSeat(Bump(r), side, SeatOf(r, side).(remaining := 0));
      EndIsStep(r, stopped, Timeout, WinFor(Opposite(side)), false);
    } else {
      QuietIsGood(r, r);
    }
  }

  lemma DisconnectIsStep(r: State, fd: int, now: int)
    requires Sound(r)
    ensures Good(r, Disconnected(r, fd, now))
  {
    hide StatusOf, FollowsHistory, Finish, Good, ColorOf;
    var c := ColorOf(r, fd);
    if c == None || !SeatOf(r, c.value).connected {
      QuietIsGood(r, r);
    } else {
      var left := WithSeat(Bump(r), c.value,
        SeatOf(r, c.value).(connected := false, disconnectedAt := now, fd := NO_FD));
      if r.game.phase == Waiting && !r.config.reserved {
        EndIsStep(r, left, Resignation, Undecided, false);
      } else {
        QuietIsGood(r, left);
      }
    }
  }

  lemma AbandonIsStep(r: State, grace: int, now: int)
    requires Sound(r)
    ensures Good(r, Abandoned(r, grace, now))
  {
    hide StatusOf, FollowsHistory, Finish, Good;
    if Abandoned(r, grace, now) == r {
      QuietIsGood(r, r);
    } else {
      EndIsStep(r, Bump(r), Abandonment, AbandonResult(r, grace, now), false);
    }
  }

  lemma StartIsGood(a: State, r: State, now: int)
    requires Quiet(a, r) && r.listeners == a.listeners && r.revision > a.revision && a.game.phase == Waiting
    requires SeatsSound(r.(game := r.game.(phase := InProgress))) && OffersSound(r)
    ensures Good(a, Start(r, now))
  {
  }

  lemma JoinIsStep(r: State, player: int, fd: int, dbId: int, now: int)
    requires Sound(r)
    ensures Good(r, Joined(r, player, fd, dbId, now))
  {
    hide StatusOf, FollowsHistory, Good, Start;
    if Joined(r, player, fd, dbId, now) == r {
      QuietIsGood(r, r);
    } else {
      var seat := r.black.(fd := fd, player := player, dbId := dbId, remaining := r.config.base, connected := true);
      StartIsGood(r, Bump(r).(black := seat), now);
    }
  }

  /** An open room that is still waiting lacks a player, so the seat bound now is newly connected. */
  lemma BindIsStep(r: State, dbId: int, player: int, fd: int, replace: bool, generation: nat, now: int)
    requires Sound(r)
    ensures Good(r, Bound(r, dbId, player, fd, replace, generation, now))
  {
    hide StatusOf, FollowsHistory, Good, Start;
    if BindRefusal(r, dbId, fd, replace, generation) == None && ColorOfDb(r, dbId).Some? {
      var s := Seated(r, ColorOfDb(r, dbId).value, player, fd, generation);
      if s.reservedOpen && s.game.phase == Waiting && BothConnected(s) {
        StartIsGood(r, s, now);
      } else {
        QuietIsGood(r, s);
      }
    } else {
      QuietIsGood(r, r);
    }
  }

  lemma OpenIsStep(r: State, now: int)
    requires Sound(r)
    ensures Good(r, Opened(r, now))
  {
    hide StatusOf, FollowsHistory, Good, Start;
    if !r.config.reserved || r.game.phase == Finished {
      QuietIsGood(r, r);
    } else {
      var o := r.(reservedOpen := true);
      if o.game.phase == Waiting && BothConnected(o) {
        StartIsGood(r, Bump(o), now);
      } else {
        QuietIsGood(r, o);
      }
    }
  }

  lemma ReconnectIsStep(r: State, dbId: int, fd: int, generation: nat, now: int)
    requires Sound(r)
    ensures Good(r, Reconnected(r, dbId, fd, generation, now))
  {
    hide StatusOf, FollowsHistory, Good, Bound;
    if r.config.reserved {
      BindIsStep(r, dbId, dbId, fd, true, generation, now);
    } else {
      QuietIsGood(r, Reconnected(r, dbId, fd, generation, now));
    }
  }

  lemma OffersAreSteps(r: State, fd: int, ttl: int, now: int)
    requires Sound(r)
    ensures Good(r, DrawOffered(r, fd, now)) && Good(r, DrawExpired(r, ttl, now))
    ensures Good(r, RematchOffered(r, fd, now)) && Good(r, RematchAnswered(r, fd))
    ensures Good(r, RematchExpired(r, ttl, now))
  {
    hide StatusOf, FollowsHistory, Settled, Good;
    QuietIsGood(r, DrawOffered(r, fd, now));
    QuietIsGood(r, DrawExpired(r, ttl, now));
    QuietIsGood(r, RematchOffered(r, fd, now));
    QuietIsGood(r, RematchAnswered(r, fd));
    QuietIsGood(r, RematchExpired(r, ttl, now));
  }

  lemma AudienceChangesAreSteps(r: State, x: int)
    requires Sound(r)
    ensures Good(r, ListenerAdded(r, x)) && Good(r, ListenerRemoved(r, x))
    ensures Good(r, SpectatorAdded(r, x)) && Good(r, SpectatorRemoved(r, x))
    ensures Good(r, Allowed(r, x))
  {
    hide StatusOf, FollowsHistory, Settled, Good, Removed;
    QuietIsGood(r, ListenerAdded(r, x));
    QuietIsGood(r, ListenerRemoved(r, x));
    QuietIsGood(r, SpectatorAdded(r, x));
    QuietIsGood(r, SpectatorRemoved(r, x));
    QuietIsGood(r, Allowed(r, x));
  }

  /** Every operation on a sound room is one of the four kinds of step. */
  lemma OperationIsStep(r: State, e: Event)
    requires Sound(r)
    ensures Good(r, After(r, e))
  {
    hide Good, Sound, Submitted, AiSubmitted, Joined, Bound, Opened, Resigned, DrawAnswered, TimeExpired, Disconnected,
      Reconnected, Abandoned, DrawOffered, DrawExpired, RematchOffered, RematchAnswered, RematchExpired;
    match e
    case Join(player, fd, dbId, now) => JoinIsStep(r, player, fd, dbId, now);
    case Bind(dbId, player, fd, replace, generation, now) => BindIsStep(r, dbId, player, fd, replace, generation, now);
    case Allow(dbId) => AudienceChangesAreSteps(r, dbId);
    case Open(now) => OpenIsStep(r, now);
    case Submit(fd, from, to, promo, t) => SubmitIsStep(r, fd, from, to, promo, t);
    case SubmitAi(from, to, promo, t) => AiSubmitIsStep(r, from, to, promo, t);
    case Resign(fd, callback) => ResignIsStep(r, fd, callback);
    case OfferDraw(fd, now) => OffersAreSteps(r, fd, 0, now);
    case AnswerDraw(fd, accept) => DrawAnswerIsStep(r, fd, accept);
    case ExpireDraw(ttl, now) => OffersAreSteps(r, 0, ttl, now);
    case OfferRematch(fd, now) => OffersAreSteps(r, fd, 0, now);
    case AnswerRematch(fd) => OffersAreSteps(r, fd, 0, 0);
    case ExpireRematch(ttl, now) => OffersAreSteps(r, 0, ttl, now);
    case ExpireOnTime(now) => TimeExpiryIsStep(r, now);
    case Disconnect(fd, now) => DisconnectIsStep(r, fd, now);
    case Reconnect(dbId, fd, generation, now) => ReconnectIsStep(r, dbId, fd, generation, now);
    case ExpireDisconnected(grace, now) => AbandonIsStep(r, grace, now);
    case AddListener(l) => AudienceChangesAreSteps(r, l);
    case RemoveListener(l) => AudienceChangesAreSteps(r, l);
    case AddSpectator(fd) => AudienceChangesAreSteps(r, fd);
    case RemoveSpectator(fd) => AudienceChangesAreSteps(r, fd);
  }

  // ---------------------------------------------------------------- the invariant is kept

  lemma MovesExtend(h: seq<Record>, x: Record)
    ensures Moves(h + [x]) == Moves(h) + [x.move]
    ensures (Moves(h) + [x.move])[..|h|] == Moves(h)
  {
  }

  lemma PlayFollowsHistory(a: State, b: State, m: Move)
    requires FollowsHistory(a) && Plays(a, b, m)
    ensures FollowsHistory(b)
  {
    hide Apply, Legal, Moves, Told, Verdict, StatusOf, SanText;
    var h := a.game.history;
    assert b.game.history == h + [b.game.history[|h|]];
    MovesExtend(h, b.game.history[|h|]);
    var ms := Moves(h) + [m];
    assert ms[..|ms| - 1] == Moves(h) && ms[|ms| - 1] == m;
  }

  lemma BeginFollowsHistory(a: State)
    requires FollowsHistory(a) && a.game.history == []
    ensures a.game.position == START
  {
  }

  lemma GoodKeepsSound(a: State, b: State)
    requires Sound(a) && Good(a, b)
    ensures Sound(b)
  {
    hide StatusOf, FollowsHistory, Told, Apply, Legal, SanText;
    if m :| Plays(a, b, m) {
      PlayFollowsHistory(a, b, m);
    } else {
      SameGameFollowsHistory(a, b);
      if Begins(a, b) {
        BeginFollowsHistory(a);
        StartIsOngoing();
      }
    }
  }

  /** The invariant survives every operation, whatever the callers and the clock do. */
  lemma StepKeepsSound(r: State, e: Event)
    requires Sound(r)
    ensures Sound(After(r, e))
  {
    hide After, Sound, Good;
    OperationIsStep(r, e);
    GoodKeepsSound(r, After(r, e));
  }

  lemma SameGameFollowsHistory(a: State, b: State)
    requires FollowsHistory(a) && b.game.position == a.game.position && b.game.history == a.game.history
    ensures FollowsHistory(b)
  {
    hide LegalLine, Replay, Moves;
  }

  // ---------------------------------------------------------------- every run

  lemma {:induction false} RunsAreSound(r: State, es: seq<Event>)
    requires Fresh(r)
    ensures Sound(Run(r, es))
  {
    hide After, Sound, Fresh;
    if es == [] {
      FreshIsSound(r);
    } else {
      RunsAreSound(r, es[..|es| - 1]);
      StepKeepsSound(Run(r, es[..|es| - 1]), es[|es| - 1]);
    }
  }

  /**
   After any run the board is the recorded game replayed from the start, every recorded move
   was legal when it was made, and the position satisfies the chess invariant.
   */
  lemma BoardFollowsHistory(r: State, es: seq<Event>)
    requires Fresh(r)
    ensures var g := Run(r, es).game;
      LegalLine(START, Moves(g.history)) && g.position == Replay(START, Moves(g.history)) && Inv(g.position)
  {
    hide Fresh, LegalLine, Replay, Inv, Moves, Settled;
    RunsAreSound(r, es);
    ReachablePositionsSatisfyInvariant(Moves(Run(r, es).game.history));
  }

  lemma FinishedStepIsQuiet(r: State, e: Event)
    requires Sound(r) && r.game.phase == Finished
    ensures Quiet(r, After(r, e))
  {
    hide After, StatusOf, FollowsHistory, Told, Apply, Legal, SanText, Verdict;
    OperationIsStep(r, e);
  }

  /** A finished game never changes: board, history, result, status and calls stay what they are. */
  lemma {:induction false} FinishedIsFinal(r: State, es: seq<Event>, n: nat)
    requires Fresh(r) && n <= |es| && Run(r, es[..n]).game.phase == Finished
    ensures Quiet(Run(r, es[..n]), Run(r, es))
  {
    hide After, Sound, Fresh;
    if n == |es| {
      assert es[..n] == es;
    } else {
      var short := es[..|es| - 1];
      assert short[..n] == es[..n];
      FinishedIsFinal(r, short, n);
      RunsAreSound(r, short);
      FinishedStepIsQuiet(Run(r, short), es[|es| - 1]);
    }
  }

  lemma LiveStepIsSilent(r: State, e: Event)
    requires Sound(r) && After(r, e).game.phase != Finished
    ensures After(r, e).sent.calls == r.sent.calls
  {
    hide After, StatusOf, FollowsHistory, Told, Apply, Legal, SanText, Verdict;
    OperationIsStep(r, e);
  }

  lemma FinishingStepTells(r: State, e: Event)
    requires Sound(r) && r.game.phase != Finished && After(r, e).game.phase == Finished
    ensures Told(r, After(r, e))
  {
    hide After, StatusOf, FollowsHistory, Told, Apply, Legal, SanText, Verdict;
    OperationIsStep(r, e);
  }

  lemma {:induction false} LiveRoomHasToldNobody(r: State, es: seq<Event>)
    requires Fresh(r) && Run(r, es).game.phase != Finished
    ensures Run(r, es).sent.calls == []
  {
    hide After, Sound;
    if es != [] {
      hide Fresh;
      var short := es[..|es| - 1];
      RunsAreSound(r, short);
      if Run(r, short).game.phase == Finished {
        FinishedStepIsQuiet(Run(r, short), es[|es| - 1]);
      }
      LiveRoomHasToldNobody(r, short);
      LiveStepIsSilent(Run(r, short), es[|es| - 1]);
    }
  }

  /** The calls are the commit callback, if any, and one call per entry of the audience, in order. */
  predicate Heard(audience: seq<int>, s: Snapshot, calls: seq<Call>) {
    calls == Announce(audience, s) || calls == [Committed] + Announce(audience, s)
  }

  /** The `n`th operation finishes the room. */
  ghost predicate FinishesAt(r: State, es: seq<Event>, n: nat)
    requires n < |es|
  {
    Run(r, es[..n]).game.phase != Finished && Run(r, es[..n + 1]).game.phase == Finished
  }

  /**
   A finished room was finished by exactly one operation; each registration of a listener at
   that moment got exactly one completion call, with the terminal snapshot, and there are no others.
   */
  lemma {:induction false} EachListenerIsToldOnce(r: State, es: seq<Event>) returns (n: nat)
    requires Fresh(r) && Run(r, es).game.phase == Finished
    ensures n < |es| && FinishesAt(r, es, n)
    ensures forall k: nat :: k < |es| && FinishesAt(r, es, k) ==> k == n
    ensures Heard(Run(r, es[..n]).listeners, SnapshotOf(Run(r, es[..n + 1])), Run(r, es).sent.calls)
  {
    hide After, Sound;
    assert es != [];
    hide Fresh;
    var short := es[..|es| - 1];
    var last := Run(r, short);
    RunsAreSound(r, short);
    assert es[..|es|] == es;
    if last.game.phase == Finished {
      n := EachListenerIsToldOnce(r, short);
      FinishedStepIsQuiet(last, es[|es| - 1]);
      assert short[..n] == es[..n] && short[..n + 1] == es[..n + 1];
    } else {
      n := |es| - 1;
      LiveRoomHasToldNobody(r, short);
      FinishingStepTells(last, es[|es| - 1]);
      assert Run(r, es).sent.calls == Run(r, es).sent.calls[..];
    }
    forall k: nat | k < |es| && FinishesAt(r, es, k)
      ensures k == n
    {
      FinishesOnce(r, es, k, n);
    }
  }

  lemma FinishesOnce(r: State, es: seq<Event>, k: nat, n: nat)
    requires Fresh(r) && k < |es| && n < |es| && FinishesAt(r, es, k) && FinishesAt(r, es, n)
    ensures k == n
  {
    hide Run, Fresh;
    if k < n {
      assert es[..n][..k + 1] == es[..k + 1];
      FinishedIsFinal(r, es[..n], k + 1);
    } else if n < k {
      assert es[..k][..n + 1] == es[..n + 1];
      FinishedIsFinal(r, es[..k], n + 1);
    }
  }

  // ---------------------------------------------------------------- every cause has its ending

  /** The move the request names leads to a position that ends the game. */
  ghost predicate NamesLastMove(p: Position, from: Square, to: Square, promo: Option<Kind>) {
    exists m: Move :: Legal(p, m) && Asked(m, from, to, promo) && StatusOf(Apply(p, m)) != Ongoing
  }

  /** Told from a live room and the request: whether the game is over after it. */
  ghost predicate MustEnd(r: State, e: Event) {
    match e
    case Submit(fd, from, to, promo, t) =>
      && ColorOf(r, fd) == Some(r.game.position.side)
      && (Flagged(r, t.flag) || NamesLastMove(r.game.position, from, to, promo))
    case SubmitAi(from, to, promo, t) =>
      && r.config.isAi && r.game.position.side == Black
      && (Flagged(r, t.flag) || NamesLastMove(r.game.position, from, to, promo))
    case Resign(fd, _) => ColorOf(r, fd).Some?
    case AnswerDraw(fd, accept) =>
      accept && r.drawOffer.Some? && ColorOf(r, fd) == Some(Opposite(r.drawOffer.value.from))
    case ExpireOnTime(now) => Flagged(r, now)
    case ExpireDisconnected(grace, now) => GraceOver(r.white, grace, now) || GraceOver(r.black, grace, now)
    case _ => false
  }

  lemma PlayedPhase(r: State, m: Move, t: Readings)
    requires r.game.phase == InProgress
    ensures Played(r, m, t).game.phase == (if StatusOf(Apply(r.game.position, m)) == Ongoing then InProgress else Finished)
  {
    hide Apply, StatusOf, SanText, Elapsed, Announce;
  }

  lemma ChosenDecides(p: Position, from: Square, to: Square, promo: Option<Kind>)
    requires Inv(p)
    ensures var m := Chosen(p, from, to, promo);
      NamesLastMove(p, from, to, promo) <==> m.Some? && StatusOf(Apply(p, m.value)) != Ongoing
  {
    hide Inv, Legal, Apply, StatusOf, Asked, Chosen;
    ChosenIsLegal(p, from, to, promo);
    if m: Move :| Legal(p, m) && Asked(m, from, to, promo) && StatusOf(Apply(p, m)) != Ongoing {
      RequestNamesOneMove(p, m, from, to, promo);
    }
  }

  lemma ReachedPosition(r: State)
    requires Sound(r)
    ensures Inv(r.game.position)
  {
    hide Inv, Settled, SeatsSound, OffersSound, Replay, LegalLine;
    ReachablePositionsSatisfyInvariant(Moves(r.game.history));
  }

  lemma SubmitEnds(r: State, fd: int, from: Square, to: Square, promo: Option<Kind>, t: Readings)
    requires Sound(r) && r.game.phase == InProgress
    ensures Submitted(r, fd, from, to, promo, t).game.phase == Finished <==> MustEnd(r, Submit(fd, from, to, promo, t))
  {
    hide Sound, Played, Chosen, Announce, NamesLastMove, Apply, StatusOf, Inv, Elapsed;
    ReachedPosition(r);
    ChosenDecides(r.game.position, from, to, promo);
    var b := Bump(r);
    match MoveRefusal(b, fd, from, to, promo, t)
    case Some(_) =>
    case None => PlayedPhase(Declined(b, b.game.position.side), Chosen(b.game.position, from, to, promo).value, t);
  }

  lemma AiSubmitEnds(r: State, from: Square, to: Square, promo: Option<Kind>, t: Readings)
    requires Sound(r) && r.game.phase == InProgress
    ensures AiSubmitted(r, from, to, promo, t).game.phase == Finished <==> MustEnd(r, SubmitAi(from, to, promo, t))
  {
    hide Sound, Played, Chosen, Announce, NamesLastMove, Apply, StatusOf, Inv, Elapsed;
    ReachedPosition(r);
    ChosenDecides(r.game.position, from, to, promo);
    var b := Bump(r);
    match AiMoveRefusal(b, from, to, promo, t)
    case Some(_) =>
    case None => PlayedPhase(b, Chosen(b.game.position, from, to, promo).value, t);
  }

  /** A live game ends with an operation exactly when the operation is one of the causes. */
  lemma EndsExactlyWhen(r: State, e: Event)
    requires Sound(r) && r.game.phase == InProgress
    ensures After(r, e).game.phase == Finished <==> MustEnd(r, e)
  {
    hide Sound, Submitted, AiSubmitted, Announce, NamesLastMove, Elapsed, Removed;
    match e
    case Submit(fd, from, to, promo, t) => SubmitEnds(r, fd, from, to, promo, t);
    case SubmitAi(from, to, promo, t) => AiSubmitEnds(r, from, to, promo, t);
    case AnswerDraw(fd, accept) => AnswerEnds(r, fd, accept);
    case Bind(dbId, player, fd, replace, generation, now) => BindEnds(r, dbId, player, fd, replace, generation, now);
    case Reconnect(dbId, fd, generation, now) => ReconnectEnds(r, dbId, fd, generation, now);
    case _ =>
  }

  lemma AnswerEnds(r: State, fd: int, accept: bool)
    requires r.game.phase == InProgress
    ensures DrawAnswered(r, fd, accept).game.phase == Finished <==> MustEnd(r, AnswerDraw(fd, accept))
  {
    hide Announce;
  }

  lemma BindEnds(r: State, dbId: int, player: int, fd: int, replace: bool, generation: nat, now: int)
    requires r.game.phase == InProgress
    ensures Bound(r, dbId, player, fd, replace, generation, now).game.phase == InProgress
  {
  }

  lemma ReconnectEnds(r: State, dbId: int, fd: int, generation: nat, now: int)
    requires r.game.phase == InProgress
    ensures Reconnected(r, dbId, fd, generation, now).game.phase == InProgress
  {
    hide Bound;
    BindEnds(r, dbId, dbId, fd, true, generation, now);
  }

  // ---------------------------------------------------------------- a pending offer of a draw

  lemma PlayedKeepsOffer(r: State, m: Move, t: Readings)
    ensures Played(r, m, t).drawOffer == r.drawOffer && |Played(r, m, t).game.history| == |r.game.history| + 1
  {
    hide Apply, StatusOf, SanText, Elapsed, Announce;
  }

  /** A recorded move answers the opponent's offer with no, and leaves the mover's own standing. */
  lemma MovingDeclines(r: State, fd: int, from: Square, to: Square, promo: Option<Kind>, t: Readings)
    ensures var b := Submitted(r, fd, from, to, promo, t);
      |b.game.history| > |r.game.history| ==>
        && b.drawOffer == (if r.drawOffer.Some? && r.drawOffer.value.from == r.game.position.side then r.drawOffer else None)
        && ColorOf(r, fd) == Some(r.game.position.side)
  {
    hide Played, Chosen, Flagged, Announce;
    var b := Bump(r);
    match MoveRefusal(b, fd, from, to, promo, t)
    case Some(_) =>
    case None => PlayedKeepsOffer(Declined(b, b.game.position.side), Chosen(b.game.position, from, to, promo).value, t);
  }

  // ---------------------------------------------------------------- revisions and causes

  /** The seat of one colour in `b` is that of `a` with this generation, taken by the connection that already holds it. */
  ghost predicate SameDescriptor(a: State, b: State, fd: int, generation: nat) {
    exists c :: SeatOf(a, c).connected && SeatOf(a, c).fd == fd && generation >= SeatOf(a, c).generation
      && b == WithSeat(a, c, SeatOf(a, c).(generation := generation))
  }

  ghost predicate ChecksIn(a: State, b: State) {
    exists c :: b == WithSeat(a, c, SeatOf(a, c).(checkedIn := true))
  }

  /**
   What an operation can do to a room without raising its revision: a check-in, opening a
   reserved room whose players are not both there, a newer generation for the connection that
   already holds the seat, and the list of listeners.
   */
  ghost predicate Unmarked(a: State, e: Event, b: State) {
    || b == a
    || match e
       case Allow(_) => ChecksIn(a, b)
       case Open(_) => b == a.(reservedOpen := true)
       case Bind(_, _, fd, _, generation, _) => SameDescriptor(a, b, fd, generation)
       case Reconnect(_, fd, generation, _) => SameDescriptor(a, b, fd, generation)
       case AddListener(_) => b == a.(listeners := b.listeners)
       case RemoveListener(_) => b == a.(listeners := b.listeners)
       case _ => false
  }

  /** The player already sits there on this connection, or is refused the seat. */
  predicate BindStandsStill(r: State, dbId: int, fd: int, replace: bool, generation: nat) {
    || BindRefusal(r, dbId, fd, replace, generation).Some?
    || (ColorOfDb(r, dbId).Some? && HoldsSeat(SeatOf(r, ColorOfDb(r, dbId).value), fd))
  }

  predicate HoldsSeat(s: Seat, fd: int) {
    s.connected && s.fd == fd
  }

  /** Told from the room before the operation alone: whether the revision will stand still. */
  predicate StandsStill(r: State, e: Event) {
    match e
    case Join(_, _, _, _) => !MayJoin(r)
    case Bind(dbId, _, fd, replace, generation, _) => BindStandsStill(r, dbId, fd, replace, generation)
    case Allow(_) => true
    case Open(_) => !(MayOpen(r) && r.game.phase == Waiting && BothConnected(r))
    case Submit(_, _, _, _, _) => false
    case SubmitAi(_, _, _, _) => false
    case Resign(_, _) => false
    case OfferDraw(fd, _) => DrawRefusal(r, fd).Some?
    case AnswerDraw(fd, _) => DrawAnswerRefusal(r, fd).Some?
    case ExpireDraw(ttl, now) => !(r.game.phase == InProgress && OfferDue(r.drawOffer, ttl, now))
    case OfferRematch(fd, _) => RematchRefusal(r, fd).Some?
    case AnswerRematch(fd) => RematchAnswerRefusal(r, fd).Some?
    case ExpireRematch(ttl, now) => !(r.game.phase == Finished && OfferDue(r.rematchOffer, ttl, now))
    case ExpireOnTime(now) => !Flagged(r, now)
    case Disconnect(fd, _) => ColorOf(r, fd) == None || !SeatOf(r, ColorOf(r, fd).value).connected
    case Reconnect(dbId, fd, generation, _) =>
      if r.config.reserved then BindStandsStill(r, dbId, fd, true, generation)
      else !MayReconnect(r, dbId, fd, generation) || HoldsSeat(SeatOf(r, ColorOfDb(r, dbId).value), fd)
    case ExpireDisconnected(grace, now) =>
      !(r.game.phase == InProgress && (GraceOver(r.white, grace, now) || GraceOver(r.black, grace, now)))
    case AddListener(_) => true
    case RemoveListener(_) => true
    case AddSpectator(_) => false
    case RemoveSpectator(_) => false
  }

  lemma BoundStandsStill(r: State, dbId: int, player: int, fd: int, replace: bool, generation: nat, now: int)
    ensures Bound(r, dbId, player, fd, replace, generation, now).revision == r.revision
      <==> BindStandsStill(r, dbId, fd, replace, generation)
  {
  }

  /** A caller can decide beforehand whether an operation will raise the revision. */
  lemma RevisionIsForeseen(r: State, e: Event)
    requires Sound(r)
    ensures After(r, e).revision == r.revision <==> StandsStill(r, e)
  {
    hide Sound, Submitted, AiSubmitted, Elapsed, Bound, BindStandsStill, Announce, Flagged, BindRefusal;
    match e
    case Submit(fd, from, to, promo, t) => SubmittedIsMarked(r, fd, from, to, promo, t);
    case SubmitAi(from, to, promo, t) => AiSubmittedIsMarked(r, from, to, promo, t);
    case Bind(dbId, player, fd, replace, generation, now) => BoundStandsStill(r, dbId, player, fd, replace, generation, now);
    case Reconnect(dbId, fd, generation, now) =>
      if r.config.reserved {
        BoundStandsStill(r, dbId, dbId, fd, true, generation, now);
      }
    case _ =>
  }

  lemma UnmarkedKeepsRevision(a: State, e: Event, b: State)
    requires Unmarked(a, e, b)
    ensures b.revision == a.revision && b.game == a.game
  {
  }

  lemma SeatedIsMarked(r: State, c: Color, player: int, fd: int, generation: nat)
    requires generation >= SeatOf(r, c).generation
    ensures var s := Seated(r, c, player, fd, generation);
      s.revision == r.revision ==> SameDescriptor(r, s, fd, generation)
  {
    if SeatOf(r, c).connected && SeatOf(r, c).fd == fd {
      assert Seated(r, c, player, fd, generation) == WithSeat(r, c, SeatOf(r, c).(generation := generation));
    }
  }

  /** An open room that is still waiting lacks a player, so a seat bound again by its own connection starts nothing. */
  lemma BoundIsMarked(r: State, dbId: int, player: int, fd: int, replace: bool, generation: nat, now: int)
    requires Sound(r)
    ensures var b := Bound(r, dbId, player, fd, replace, generation, now);
      b.revision == r.revision ==> b == r || SameDescriptor(r, b, fd, generation)
  {
    hide StatusOf, FollowsHistory, Settled, OffersSound;
    if BindRefusal(r, dbId, fd, replace, generation) == None && ColorOfDb(r, dbId).Some? {
      SeatedIsMarked(r, ColorOfDb(r, dbId).value, player, fd, generation);
    }
  }

  lemma AllowedIsCheckIn(r: State, dbId: int)
    ensures Allowed(r, dbId) == r || ChecksIn(r, Allowed(r, dbId))
  {
    if r.config.reserved && r.game.phase != Finished && ColorOfDb(r, dbId).Some? {
      var c := ColorOfDb(r, dbId).value;
      assert Allowed(r, dbId) == WithSeat(r, c, SeatOf(r, c).(checkedIn := true));
    }
  }

  lemma SubmittedIsMarked(r: State, fd: int, from: Square, to: Square, promo: Option<Kind>, t: Readings)
    requires Sound(r)
    ensures Submitted(r, fd, from, to, promo, t).revision > r.revision
  {
    hide Sound, StatusOf, Chosen, Flagged, Announce, Advanced, Recorded, ColorOf;
    AdvancedKeepsRevision(t);
  }

  lemma AiSubmittedIsMarked(r: State, from: Square, to: Square, promo: Option<Kind>, t: Readings)
    requires Sound(r)
    ensures AiSubmitted(r, from, to, promo, t).revision > r.revision
  {
    hide Sound, StatusOf, Chosen, Flagged, Announce, Advanced, Recorded, ColorOf;
    AdvancedKeepsRevision(t);
  }

  lemma AdvancedKeepsRevision(t: Readings)
    ensures forall b: State, m: Move :: Advanced(b, m, t).revision == b.revision
  {
    hide Apply, SanText, Elapsed;
  }

  /**
   The revision never falls, and it stays the same exactly when the operation did nothing or
   only one of the few unmarked things, which can be told from the room before it; a change of
   board, history, phase, result or status is none of them.
   */
  lemma RevisionMarksChange(r: State, e: Event)
    requires Sound(r)
    ensures r.revision <= After(r, e).revision
    ensures r.revision == After(r, e).revision <==> StandsStill(r, e)
    ensures r.revision == After(r, e).revision <==> Unmarked(r, e, After(r, e))
    ensures After(r, e).game != r.game ==> r.revision < After(r, e).revision
  {
    hide Sound, Unmarked, StandsStill, StatusOf, FollowsHistory, Told, Apply, Legal, SanText, Verdict, Submitted, AiSubmitted, SameDescriptor;
    OperationIsStep(r, e);
    if Unmarked(r, e, After(r, e)) {
      UnmarkedKeepsRevision(r, e, After(r, e));
    }
    ChangeIsMarked(r, e);
    RevisionIsForeseen(r, e);
  }

  lemma ChangeIsMarked(r: State, e: Event)
    requires Sound(r)
    ensures After(r, e).revision == r.revision ==> Unmarked(r, e, After(r, e))
  {
    hide Sound, SameDescriptor, ChecksIn, Submitted, AiSubmitted, Elapsed, Seated, Bound, Allowed, Announce, Flagged;
    match e
    case Submit(fd, from, to, promo, t) => SubmittedIsMarked(r, fd, from, to, promo, t);
    case SubmitAi(from, to, promo, t) => AiSubmittedIsMarked(r, from, to, promo, t);
    case Allow(dbId) => AllowedIsCheckIn(r, dbId);
    case Bind(dbId, player, fd, replace, generation, now) => BoundIsMarked(r, dbId, player, fd, replace, generation, now);
    case Reconnect(dbId, fd, generation, now) =>
      BoundIsMarked(r, dbId, dbId, fd, true, generation, now);
      if MayReconnect(r, dbId, fd, generation) && ColorOfDb(r, dbId).Some? {
        var c := ColorOfDb(r, dbId).value;
        if !r.config.reserved {
          SeatedIsMarked(r, c, SeatOf(r, c).player, fd, generation);
        }
      }
    case _ =>
  }

  /** A tournament room in which each of the three seat and door changes happens unmarked. */
  lemma ChangesWithoutRevision() returns (r: State, checkIn: Event, open: Event, es: seq<Event>, again: Event)
    ensures Fresh(r) && checkIn.Allow? && open.Open? && again.Bind?
    ensures After(r, checkIn) != r && After(r, checkIn).revision == r.revision
    ensures After(r, open) != r && After(r, open).revision == r.revision
    ensures After(Run(r, es), again) != Run(r, es) && After(Run(r, es), again).revision == Run(r, es).revision
  {
    hide Fresh, Run, Submitted, AiSubmitted, Start;
    r := NewReservedRoom(60000, 0, 1, 2);
    assert Fresh(r) by {
      FreshReserved(r, 60000, 0, 1, 2);
    }
    checkIn, open, again := Allow(1), Open(0), Bind(1, 1, 5, false, 1, 0);
    var a := After(r, checkIn);
    var first := Bind(1, 1, 5, false, 0, 0);
    var b := After(a, first);
    assert b == WithSeat(Bump(a), White, a.white.(player := 1, fd := 5, connected := true));
    assert After(b, again) == b.(white := b.white.(generation := 1));
    es := [checkIn, first];
    RunOfTwo(r, checkIn, first);
  }

  lemma RunOfTwo(r: State, e: Event, f: Event)
    ensures Run(r, [e, f]) == After(After(r, e), f)
  {
    hide After;
    assert [e, f][..1] == [e] && [e][..0] == [];
    assert Run(r, [e]) == After(Run(r, []), e);
  }

  lemma FreshReserved(r: State, base: int, increment: int, whiteDb: int, blackDb: int)
    requires r == NewReservedRoom(base, increment, whiteDb, blackDb)
    ensures Fresh(r)
  {
  }

  /** The reading at which an operation tests the flag of the side to move. */
  function FlagReading(e: Event): Option<int> {
    match e
    case Submit(_, _, _, _, t) => Some(t.flag)
    case SubmitAi(_, _, _, t) => Some(t.flag)
    case ExpireOnTime(now) => Some(now)
    case _ => None
  }

  /** Whoever wins by abandonment faces a seat gone for the whole grace, and did not leave before it. */
  predicate Forfeits(r: State, loser: Color, grace: int, now: int) {
    && GraceOver(SeatOf(r, loser), grace, now)
    && (GraceOver(SeatOf(r, Opposite(loser)), grace, now) ==>
          SeatOf(r, loser).disconnectedAt < SeatOf(r, Opposite(loser)).disconnectedAt)
  }

  /** What must have happened for the operation `e` on `r` to end the game as `b`. */
  ghost predicate Caused(r: State, e: Event, b: State) {
    match b.game.status
    case Timeout =>
      && FlagReading(e).Some? && Flagged(r, FlagReading(e).value)
      && b.game.position == r.game.position && b.game.result == WinFor(Opposite(r.game.position.side))
    case DrawAgreement =>
      && e.AnswerDraw? && e.accept && r.drawOffer.Some?
      && ColorOf(r, e.fd) == Some(Opposite(r.drawOffer.value.from))
      && b.game.result == Drawn
    case Resignation =>
      || (e.Resign? && r.game.phase == InProgress && ColorOf(r, e.fd).Some?
          && b.game.result == WinFor(Opposite(ColorOf(r, e.fd).value)))
      || (e.Disconnect? && r.game.phase == Waiting && !r.config.reserved && b.game.result == Undecided)
    case Abandonment =>
      && e.ExpireDisconnected?
      && (match b.game.result
          case WhiteWins => Forfeits(r, Black, e.grace, e.now)
          case BlackWins => Forfeits(r, White, e.grace, e.now)
          case Drawn =>
            && GraceOver(r.white, e.grace, e.now) && GraceOver(r.black, e.grace, e.now)
            && r.white.disconnectedAt == r.black.disconnectedAt
          case Undecided => false)
    case _ =>
      && (e.Submit? || e.SubmitAi?)
      && exists m :: Plays(r, b, m)
  }

  /** A room ends only for the reason its status gives, in favour of the right side. */
  lemma EveryEndingIsCaused(r: State, e: Event)
    requires Sound(r) && r.game.phase != Finished && After(r, e).game.phase == Finished
    ensures Caused(r, e, After(r, e))
  {
    hide Sound, Caused, FollowsHistory, Submitted, AiSubmitted;
    match e
    case Submit(fd, from, to, promo, t) => MoveEndingIsCaused(r, fd, from, to, promo, t);
    case SubmitAi(from, to, promo, t) => AiMoveEndingIsCaused(r, from, to, promo, t);
    case ExpireDisconnected(grace, now) => AbandonmentIsCaused(r, grace, now);
    case _ => OtherEndingIsCaused(r, e);
  }

  lemma MoveEndingIsCaused(r: State, fd: int, from: Square, to: Square, promo: Option<Kind>, t: Readings)
    requires Sound(r) && r.game.phase != Finished
    requires Submitted(r, fd, from, to, promo, t).game.phase == Finished
    ensures Caused(r, Submit(fd, from, to, promo, t), Submitted(r, fd, from, to, promo, t))
  {
    hide StatusOf, FollowsHistory, Calls, Elapsed, Legal, Played, Asked, Chosen, Plays, ColorOf, Good;
    var b := Bump(r);
    if MoveRefusal(b, fd, from, to, promo, t) == None {
      ChosenIsLegal(b.game.position, from, to, promo);
      var m := Chosen(b.game.position, from, to, promo).value;
      PlayedIsStep(r, Declined(b, b.game.position.side), m, t);
      PlayedEnding(r, Submitted(r, fd, from, to, promo, t), m);
    }
  }

  lemma AiMoveEndingIsCaused(r: State, from: Square, to: Square, promo: Option<Kind>, t: Readings)
    requires Sound(r) && r.game.phase != Finished
    requires AiSubmitted(r, from, to, promo, t).game.phase == Finished
    ensures Caused(r, SubmitAi(from, to, promo, t), AiSubmitted(r, from, to, promo, t))
  {
    hide StatusOf, FollowsHistory, Calls, Elapsed, Legal, Played, Asked, Chosen, Plays, Good;
    var b := Bump(r);
    if AiMoveRefusal(b, from, to, promo, t) == None {
      ChosenIsLegal(b.game.position, from, to, promo);
      var m := Chosen(b.game.position, from, to, promo).value;
      PlayedIsStep(r, b, m, t);
      PlayedEnding(r, AiSubmitted(r, from, to, promo, t), m);
    }
  }

  lemma PlayedEnding(a: State, b: State, m: Move)
    requires Plays(a, b, m) && b.game.phase == Finished
    ensures b.game.status in {Checkmate, Stalemate, DrawFiftyMove}
  {
    hide Legal, Apply, SanText, Told;
  }

  lemma AbandonmentIsCaused(r: State, grace: int, now: int)
    requires r.game.phase != Finished && Abandoned(r, grace, now).game.phase == Finished
    ensures Caused(r, ExpireDisconnected(grace, now), Abandoned(r, grace, now))
  {
    hide Plays, Announce;
  }

  lemma OtherEndingIsCaused(r: State, e: Event)
    requires Sound(r) && r.game.phase != Finished && After(r, e).game.phase == Finished
    requires !e.Submit? && !e.SubmitAi? && !e.ExpireDisconnected?
    ensures Caused(r, e, After(r, e))
  {
    hide FollowsHistory, Announce, Plays, Elapsed, StatusOf;
  }

  // ---------------------------------------------------------------- the stored game

  /**
   The move text stored for a room, after any run, is rebuilt by the replay: the same moves,
   and in the end the very board the room holds.
   */
  lemma StoredRoomReplays(r: State, es: seq<Event>, rebuilt: ReplayResult)
    requires Fresh(r)
    requires IsReplayOf(Words(GameText(Moves(Run(r, es).game.history))), rebuilt)
    ensures var g := Run(r, es).game;
      && rebuilt.Rebuilt? && rebuilt.moves == Moves(g.history)
      && |rebuilt.positions| == |g.history| + 1 && rebuilt.positions[|g.history|] == g.position
  {
    hide Fresh, Run, LegalLine, Replay, Inv, Moves, Words, IsReplayOf, GameText;
    var ms := Moves(Run(r, es).game.history);
    BoardFollowsHistory(r, es);
    StoredGameReplays(ms, rebuilt);
    assert ms[..|ms|] == ms;
  }
}
