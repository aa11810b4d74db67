/** Fischer clocks over every run of a game room. */
module RoomClocks {
  import opened Types
  import opened Rules
  import opened MoveGen
  import opened San
  import opened Room
  import opened RoomRuns

  /** White makes the even-numbered moves of a game. */
  function MoverOf(i: nat): Color {
    if i % 2 == 0 then White else Black
  }

  /** The number of recorded moves of `c`. */
  function MoveCount(h: seq<Record>, c: Color): nat {
    if h == [] then 0
    else MoveCount(h[..|h| - 1], c) + (if MoverOf(|h| - 1) == c then 1 else 0)
  }

  /** The think times recorded for `c`, added up. */
  function Spent(h: seq<Record>, c: Color): int {
    if h == [] then 0
    else Spent(h[..|h| - 1], c) + (if MoverOf(|h| - 1) == c then h[|h| - 1].think else 0)
  }

  function Budget(r: State, c: Color): int {
    r.config.base + r.config.increment * MoveCount(r.game.history, c) - Spent(r.game.history, c)
  }

  /** The game went live: a room left while waiting ends without a result. */
  predicate Started(r: State) {
    r.game.phase == InProgress || (r.game.phase == Finished && r.game.result != Undecided)
  }

  /** Every operation takes one clock reading. */
  predicate OneReading(e: Event) {
    match e
    case Submit(_, _, _, _, t) => t.flag == t.think == t.stop
    case SubmitAi(_, _, _, t) => t.flag == t.think == t.stop
    case _ => true
  }

  ghost predicate OneReadings(es: seq<Event>) {
    forall e :: e in es ==> OneReading(e)
  }

  predicate Balanced(r: State) {
    && r.game.position.side == MoverOf(|r.game.history|)
    && (r.game.phase == Waiting ==>
          && r.game.history == [] && r.white.remaining == r.config.base
          && (r.config.reserved ==> r.black.remaining == r.config.base))
    && (Started(r) && (r.game.status != Timeout || r.game.result == WhiteWins) ==> r.white.remaining == Budget(r, White))
    && (Started(r) && (r.game.status != Timeout || r.game.result == BlackWins) ==> r.black.remaining == Budget(r, Black))
  }

  predicate NonNegative(r: State) {
    r.white.remaining >= 0 && r.black.remaining >= 0
  }

  /** Nothing, or the base time when that is less than nothing. */
  function Floor(r: State): int {
    if r.config.base < 0 then r.config.base else 0
  }

  predicate AboveFloor(r: State) {
    r.white.remaining >= Floor(r) && r.black.remaining >= Floor(r)
  }

  lemma RecordedBudget(r: State, m: Move, t: Readings, c: Color)
    requires r.game.position.side == MoverOf(|r.game.history|)
    ensures var think := Elapsed(SeatOf(r, r.game.position.side).clockStart, t.think);
      Budget(Recorded(r, m, t), c) == Budget(r, c) + if c == r.game.position.side then r.config.increment - think else 0
  {
    hide Elapsed, Apply, SanText;
    var h := Recorded(r, m, t).game.history;
    assert h[..|h| - 1] == r.game.history;
  }

  lemma SameBudget(a: State, b: State)
    requires a.game.history == b.game.history && a.config == b.config
    ensures Budget(a, White) == Budget(b, White) && Budget(a, Black) == Budget(b, Black)
  {
  }

  lemma AdvancedIsBalanced(r: State, m: Move, t: Readings)
    requires Balanced(r) && r.game.phase == InProgress && r.game.status == Ongoing
    requires t.flag == t.think == t.stop && !Flagged(r, t.flag) && -1 <= r.config.increment
    ensures Balanced(Advanced(r, m, t))
  {
    hide Elapsed, SanText, Relocated, Captured, UpdatedRights, Budget;
    SameBudget(Advanced(r, m, t), Recorded(r, m, t));
    RecordedBudget(r, m, t, White);
    RecordedBudget(r, m, t, Black);
  }

  lemma FinishedIsBalanced(r: State, status: GameStatus, result: Result)
    requires Balanced(r) && r.game.phase == InProgress && r.game.status == Ongoing && status != Timeout
    ensures Balanced(Finish(r, status, result))
  {
    hide Budget, Calls;
    SameBudget(Finish(r, status, result), r);
  }

  lemma PlayedIsBalanced(r: State, m: Move, t: Readings)
    requires Balanced(r) && r.game.phase == InProgress && r.game.status == Ongoing
    requires t.flag == t.think == t.stop && !Flagged(r, t.flag) && -1 <= r.config.increment
    ensures Balanced(Played(r, m, t))
  {
    hide Balanced, Flagged, StatusOf, Finish, Elapsed, SanText, Apply;
    AdvancedIsBalanced(r, m, t);
    var next := Advanced(r, m, t);
    var status := StatusOf(next.game.position);
    OnlyBoardStatuses(next.game.position);
    if status != Ongoing {
      FinishedIsBalanced(next, status, BoardResult(status, next.game.position.side));
    }
  }

  lemma PlayedStaysAbove(r: State, m: Move, t: Readings)
    requires AboveFloor(r)
    ensures AboveFloor(Played(r, m, t))
  {
    hide Elapsed, SanText, StatusOf, Apply, Announce;
  }

  /** The clocks are as they were, and the game is too except that it began or ended. */
  predicate ClocksKept(a: State, b: State) {
    && b.config == a.config
    && b.game == a.game.(phase := b.game.phase, status := b.game.status, result := b.game.result)
    && b.white.remaining == a.white.remaining && b.black.remaining == a.black.remaining
    && (b.game.phase == a.game.phase
        || (b.game.phase == InProgress && a.config.reserved)
        || (b.game.phase == Finished && (a.game.phase == InProgress || b.game.result == Undecided)))
    && (a.game.phase == Finished ==> b.game == a.game)
  }

  lemma KeptClocksAreBalanced(a: State, b: State)
    requires ClocksKept(a, b) && Balanced(a) && Settled(a)
    ensures Balanced(b)
  {
    hide StatusOf;
    assert a.game.history == [] ==> Budget(a, White) == Budget(a, Black) == a.config.base;
  }

  lemma BindKeepsClocks(r: State, dbId: int, player: int, fd: int, replace: bool, generation: nat, now: int)
    ensures ClocksKept(r, Bound(r, dbId, player, fd, replace, generation, now))
  {
    hide Announce;
  }

  lemma SeatEventsKeepClocks(r: State, e: Event)
    requires e.Bind? || e.Allow? || e.Open? || e.Disconnect? || e.Reconnect?
    ensures ClocksKept(r, After(r, e))
  {
    hide Announce, Bound, ClocksKept;
    match e
    case Bind(dbId, player, fd, replace, generation, now) => BindKeepsClocks(r, dbId, player, fd, replace, generation, now);
    case Reconnect(dbId, fd, generation, now) => ReconnectKeepsClocks(r, dbId, fd, generation, now);
    case Disconnect(fd, now) => DisconnectKeepsClocks(r, fd, now);
    case Allow(dbId) => AllowKeepsClocks(r, dbId);
    case Open(now) => OpenKeepsClocks(r, now);
  }

  lemma ReconnectKeepsClocks(r: State, dbId: int, fd: int, generation: nat, now: int)
    ensures ClocksKept(r, Reconnected(r, dbId, fd, generation, now))
  {
    hide Bound;
    BindKeepsClocks(r, dbId, dbId, fd, true, generation, now);
  }

  lemma DisconnectKeepsClocks(r: State, fd: int, now: int)
    ensures ClocksKept(r, Disconnected(r, fd, now))
  {
    hide Announce;
  }

  lemma AllowKeepsClocks(r: State, dbId: int)
    ensures ClocksKept(r, Allowed(r, dbId))
  {
  }

  lemma OpenKeepsClocks(r: State, now: int)
    ensures ClocksKept(r, Opened(r, now))
  {
  }

  lemma OtherEventsKeepClocks(r: State, e: Event)
    requires !(e.Bind? || e.Allow? || e.Open? || e.Disconnect? || e.Reconnect?)
    requires !(e.Join? || e.Submit? || e.SubmitAi? || e.ExpireOnTime?)
    ensures ClocksKept(r, After(r, e))
  {
    hide FollowsHistory, StatusOf, Announce, Removed;
  }

  lemma TimeoutClocks(r: State, now: int)
    requires Sound(r)
    ensures Balanced(r) ==> Balanced(TimeExpired(r, now))
    ensures AboveFloor(r) ==> AboveFloor(TimeExpired(r, now))
  {
    hide FollowsHistory, StatusOf, Announce, Elapsed, Budget;
    SameBudget(r, TimeExpired(r, now));
  }

  lemma JoinClocks(r: State, player: int, fd: int, dbId: int, now: int)
    requires Sound(r)
    ensures var b := Joined(r, player, fd, dbId, now);
      && (Balanced(r) ==> Balanced(b))
      && (AboveFloor(r) ==> AboveFloor(b))
  {
    hide FollowsHistory, StatusOf;
  }

  lemma FlagFallClocks(r: State, left: State, result: Result)
    requires Sound(r) && r.game.phase == InProgress && result == WinFor(Opposite(r.game.position.side))
    requires left == r || (left == WithSeat(r, Black, r.black.(remaining := 0)) && r.game.position.side == Black)
    ensures Balanced(r) ==> Balanced(Finish(left, Timeout, result))
    ensures AboveFloor(r) ==> AboveFloor(Finish(left, Timeout, result))
  {
    hide FollowsHistory, StatusOf, Calls, Budget;
    SameBudget(r, Finish(left, Timeout, result));
  }

  lemma BumpKeeps(r: State)
    ensures Sound(r) ==> Sound(Bump(r))
    ensures Balanced(r) ==> Balanced(Bump(r))
  {
    hide FollowsHistory, StatusOf, Budget;
    SameBudget(r, Bump(r));
    if FollowsHistory(r) {
      SameGameFollowsHistory(r, Bump(r));
    }
  }

  lemma SubmitClocks(r: State, fd: int, from: Square, to: Square, promo: Option<Kind>, t: Readings)
    requires Sound(r)
    ensures var b := Submitted(r, fd, from, to, promo, t);
      && (AboveFloor(r) ==> AboveFloor(b))
      && (Balanced(r) && -1 <= r.config.increment && t.flag == t.think == t.stop ==> Balanced(b))
  {
    hide FollowsHistory, StatusOf, Elapsed, Budget, Chosen, Played, ColorOf, Finish;
    BumpKeeps(r);
    var b := Bump(r);
    match MoveRefusal(b, fd, from, to, promo, t)
    case Some(OutOfTime) => FlagFallClocks(b, b, WinFor(Opposite(b.game.position.side)));
    case Some(_) =>
    case None =>
      var s, m := Declined(b, b.game.position.side), Chosen(b.game.position, from, to, promo).value;
      SameBudget(b, s);
      MoveClocks(s, m, t);
  }

  lemma MoveClocks(r: State, m: Move, t: Readings)
    requires r.game.phase == InProgress && r.game.status == Ongoing && !Flagged(r, t.flag)
    ensures AboveFloor(r) ==> AboveFloor(Played(r, m, t))
    ensures Balanced(r) && -1 <= r.config.increment && t.flag == t.think == t.stop ==> Balanced(Played(r, m, t))
  {
    hide *;
    if AboveFloor(r) {
      PlayedStaysAbove(r, m, t);
    }
    if Balanced(r) && -1 <= r.config.increment && t.flag == t.think == t.stop {
      PlayedIsBalanced(r, m, t);
    }
  }

  lemma AiSubmitClocks(r: State, from: Square, to: Square, promo: Option<Kind>, t: Readings)
    requires Sound(r)
    ensures var b := AiSubmitted(r, from, to, promo, t);
      && (AboveFloor(r) ==> AboveFloor(b))
      && (Balanced(r) && -1 <= r.config.increment && t.flag == t.think == t.stop ==> Balanced(b))
  {
    hide FollowsHistory, StatusOf, Elapsed, Budget, Chosen, Played, Finish;
    BumpKeeps(r);
    var b := Bump(r);
    match AiMoveRefusal(b, from, to, promo, t)
    case Some(OutOfTime) => FlagFallClocks(b, WithSeat(b, Black, b.black.(remaining := 0)), WhiteWins);
    case Some(_) =>
    case None => MoveClocks(b, Chosen(b.game.position, from, to, promo).value, t);
  }

  lemma StepClocks(r: State, e: Event)
    requires Sound(r)
    ensures AboveFloor(r) ==> AboveFloor(After(r, e))
    ensures Balanced(r) && -1 <= r.config.increment && OneReading(e) ==> Balanced(After(r, e))
  {
    hide Sound, Balanced, Submitted, AiSubmitted, Joined, TimeExpired;
    match e
    case Submit(fd, from, to, promo, t) => SubmitClocks(r, fd, from, to, promo, t);
    case SubmitAi(from, to, promo, t) => AiSubmitClocks(r, from, to, promo, t);
    case Join(player, fd, dbId, now) => JoinClocks(r, player, fd, dbId, now);
    case ExpireOnTime(now) => TimeoutClocks(r, now);
    case _ => KeptStepClocks(r, e);
  }

  lemma KeptStepClocks(r: State, e: Event)
    requires Sound(r) && !e.Submit? && !e.SubmitAi? && !e.Join? && !e.ExpireOnTime?
    ensures AboveFloor(r) ==> AboveFloor(After(r, e))
    ensures Balanced(r) ==> Balanced(After(r, e))
  {
    hide After, Balanced, FollowsHistory;
    if e.Bind? || e.Allow? || e.Open? || e.Disconnect? || e.Reconnect? {
      SeatEventsKeepClocks(r, e);
    } else {
      OtherEventsKeepClocks(r, e);
    }
    if Balanced(r) {
      KeptClocksAreBalanced(r, After(r, e));
    }
  }

  lemma FreshClocks(r: State)
    requires Fresh(r)
    ensures Balanced(r) && AboveFloor(r) && (NonNegative(r) <==> 0 <= r.config.base)
  {
  }

  lemma StepKeepsConfig(r: State, e: Event)
    requires Sound(r)
    ensures After(r, e).config == r.config
  {
    hide After, StatusOf, FollowsHistory, Told, Apply, Legal, SanText, Verdict;
    OperationIsStep(r, e);
  }

  /** No reading of the clock drives a remaining time below zero, or below a base time that is itself negative. */
  lemma {:induction false} ClocksStayAboveFloor(r: State, es: seq<Event>)
    requires Fresh(r)
    ensures AboveFloor(Run(r, es)) && Run(r, es).config == r.config
  {
    hide After, Fresh, Sound, AboveFloor;
    if es == [] {
      FreshClocks(r);
    } else {
      var short := es[..|es| - 1];
      ClocksStayAboveFloor(r, short);
      RunsAreSound(r, short);
      StepClocks(Run(r, short), es[|es| - 1]);
      StepKeepsConfig(Run(r, short), es[|es| - 1]);
    }
  }

  /** The clocks of a room never run below zero exactly when its base time is not negative; otherwise they begin there. */
  lemma ClocksStayNonNegative(r: State)
    requires Fresh(r)
    ensures (forall es :: NonNegative(Run(r, es))) <==> 0 <= r.config.base
  {
    hide Fresh, Run, NonNegative, AboveFloor;
    FreshClocks(r);
    RunNone(r);
    if 0 <= r.config.base {
      forall es
        ensures NonNegative(Run(r, es))
      {
        ClocksStayAboveFloor(r, es);
        FloorIsZero(Run(r, es));
      }
    } else {
      assert !NonNegative(Run(r, []));
    }
  }

  lemma FloorIsZero(r: State)
    requires AboveFloor(r) && 0 <= r.config.base
    ensures NonNegative(r)
  {
  }

  lemma {:induction false} ClocksStayBalanced(r: State, es: seq<Event>)
    requires Fresh(r) && -1 <= r.config.increment
    requires OneReadings(es)
    ensures Balanced(Run(r, es)) && Run(r, es).config == r.config
  {
    hide After, Fresh, Sound, Balanced, OneReading;
    if es == [] {
      FreshClocks(r);
    } else {
      var short := es[..|es| - 1];
      assert es[|es| - 1] in es && forall e :: e in short ==> e in es;
      ClocksStayBalanced(r, short);
      RunsAreSound(r, short);
      StepClocks(Run(r, short), es[|es| - 1]);
      StepKeepsConfig(Run(r, short), es[|es| - 1]);
    }
  }

  /** The remaining time of a side is its budget, once the game has started, and unless the side lost on time. */
  predicate Conserved(b: State, c: Color) {
    Started(b) && (b.game.status == Timeout ==> b.game.result == WinFor(c)) ==> SeatOf(b, c).remaining == Budget(b, c)
  }

  /**
   With one clock reading per operation, the remaining time of each side of a started game is
   its base time plus one increment per move it made, minus the think times recorded for it;
   after a timeout this still holds for the winner.  An increment of minus one millisecond does
   no harm: a clock that has not run out holds at least that much.
   */
  lemma TimeIsConserved(r: State, es: seq<Event>, c: Color)
    requires Fresh(r) && -1 <= r.config.increment && OneReadings(es)
    ensures Conserved(Run(r, es), c)
    ensures Run(r, es).config == r.config
  {
    hide Run, Fresh, OneReading, MoveCount, Spent;
    ClocksStayBalanced(r, es);
  }

  /** The time shown to the side to move is nothing exactly when its flag has fallen, and never less. */
  lemma ShownZeroIffFlagged(r: State, now: int)
    requires r.game.phase == InProgress
    ensures ShownTime(r, r.game.position.side, now) >= 0
    ensures ShownTime(r, r.game.position.side, now) == 0 <==> Flagged(r, now)
    ensures ShownTime(r, Opposite(r.game.position.side), now) == SeatOf(r, Opposite(r.game.position.side)).remaining
  {
    hide Elapsed;
  }

  // ---------------------------------------------------------------- an increment that takes time away

  const A2 := 8
  const A3 := 16

  /** White's first move, with all three readings at `t`. */
  function FirstMove(t: int): Event {
    Submit(1, A2, A3, None, Readings(t, t, t))
  }

  /** A game has just begun at time zero, White sits on connection 1. */
  predicate JustBegun(r: State) {
    && r.game == Game(InProgress, START, Undecided, Ongoing, [])
    && ColorOf(r, 1) == Some(White) && r.drawOffer == None
    && r.white.remaining == r.config.base && r.white.clockStart == 0
  }

  /** The reading at which a clock started at zero with `base` milliseconds has one left. */
  function LastMoment(base: int): int {
    (base - 1) * NANOS_PER_MILLI
  }

  lemma OneMillisecondLeft(base: int)
    ensures base - Elapsed(0, LastMoment(base)) == 1
  {
    if base >= 1 {
      ExactMillis(base - 1);
    } else {
      ExactMillis(1 - base);
      assert 0 - LastMoment(base) == (1 - base) * NANOS_PER_MILLI;
    }
  }

  lemma ExactMillis(n: nat)
    ensures n * NANOS_PER_MILLI >= 0 && (n * NANOS_PER_MILLI) / NANOS_PER_MILLI == n
  {
  }

  /** Whatever follows from the position it leads to, a move leaves the clocks as the switch set them. */
  lemma PlayedClocks(r: State, m: Move, t: Readings)
    requires r.game.phase == InProgress && r.game.status == Ongoing
    ensures var b, next := Played(r, m, t), Advanced(r, m, t);
      && b.config == r.config && b.white == next.white && b.black == next.black
      && b.game.history == next.game.history && Started(b) && b.game.status != Timeout
  {
    hide Apply, StatusOf, SanText, Elapsed, Announce;
    OnlyBoardStatuses(Advanced(r, m, t).game.position);
  }

  lemma FirstMoveIsAccepted(r: State, t: int)
    requires r.game == Game(InProgress, START, Undecided, Ongoing, []) && ColorOf(r, 1) == Some(White) && r.drawOffer == None
    requires r.white.remaining - Elapsed(r.white.clockStart, t) > 0
    ensures exists m: Move :: After(r, FirstMove(t)) == Played(Bump(r), m, Readings(t, t, t))
  {
    hide Elapsed, Played, Legal;
    OpeningIsLegal();
    assert Asked(OPENING, A2, A3, None);
    var m := Chosen(START, A2, A3, None).value;
    assert !Flagged(Bump(r), t);
    assert After(r, FirstMove(t)) == Played(Bump(r), m, Readings(t, t, t));
  }

  /** The clamp of the clock bites: White is left with nothing, although its budget is below that. */
  lemma FirstMoveIsClamped(r: State)
    requires JustBegun(r) && r.config.increment <= -2
    ensures var b := After(r, FirstMove(LastMoment(r.config.base)));
      b.white.remaining == 0 && Budget(b, White) == r.config.increment + 1 < 0 && !Conserved(b, White)
  {
    hide After, Played, Elapsed, Apply, SanText, LastMoment;
    var t := LastMoment(r.config.base);
    OneMillisecondLeft(r.config.base);
    FirstMoveIsAccepted(r, t);
    var a, ts := Bump(r), Readings(t, t, t);
    var m: Move :| After(r, FirstMove(t)) == Played(a, m, ts);
    PlayedClocks(a, m, ts);
    RecordedBudget(a, m, ts, White);
    SameBudget(After(r, FirstMove(t)), Recorded(a, m, ts));
    assert Budget(a, White) == r.config.base;
  }

  /** A run that starts the game of a fresh room of any kind at time zero. */
  function Opening(c: Config): (es: seq<Event>) {
    if c.isAi then []
    else if c.reserved then [Allow(1), Allow(2), Bind(1, 1, 1, false, 0, 0), Bind(2, 2, 2, false, 0, 0), Open(0)]
    else [Join(2, 2, 2, 0)]
  }

  function RoomOf(c: Config): State {
    if c.isAi then NewAiRoom(c.base, c.increment, 1, 1, 1, 0)
    else if c.reserved then NewReservedRoom(c.base, c.increment, 1, 2)
    else NewRoom(c.base, c.increment, 1, 1, 1)
  }

  lemma RoomOfIsFresh(c: Config)
    requires !(c.isAi && c.reserved)
    ensures Fresh(RoomOf(c)) && RoomOf(c).config == c
  {
  }

  lemma RunOnce(r: State, es: seq<Event>, e: Event)
    ensures Run(r, es + [e]) == After(Run(r, es), e)
  {
    hide After;
    assert (es + [e])[..|es|] == es;
  }

  lemma RunNone(r: State)
    ensures Run(r, []) == r
  {
  }

  lemma ReservedRoomBegins(r: State, base: int, increment: int)
    requires r == NewReservedRoom(base, increment, 1, 2)
    ensures JustBegun(Run(r, [Allow(1), Allow(2), Bind(1, 1, 1, false, 0, 0), Bind(2, 2, 2, false, 0, 0), Open(0)]))
  {
    hide Run, Submitted, AiSubmitted;
    var a1, a2 := Allow(1), Allow(2);
    var b1, b2 := Bind(1, 1, 1, false, 0, 0), Bind(2, 2, 2, false, 0, 0);
    RunNone(r);
    RunOnce(r, [], a1);
    RunOnce(r, [a1], a2);
    RunOnce(r, [a1, a2], b1);
    RunOnce(r, [a1, a2, b1], b2);
    RunOnce(r, [a1, a2, b1, b2], Open(0));
    assert [] + [a1] == [a1] && [a1] + [a2] == [a1, a2] && [a1, a2] + [b1] == [a1, a2, b1];
    assert [a1, a2, b1] + [b2] == [a1, a2, b1, b2] && [a1, a2, b1, b2] + [Open(0)] == [a1, a2, b1, b2, Open(0)];
  }

  lemma OpeningBegins(c: Config)
    requires !(c.isAi && c.reserved)
    ensures JustBegun(Run(RoomOf(c), Opening(c))) && Run(RoomOf(c), Opening(c)).config == c
  {
    hide Run, Fresh, Sound, Submitted, AiSubmitted;
    var r := RoomOf(c);
    RoomOfIsFresh(c);
    RunNone(r);
    if c.reserved {
      ReservedRoomBegins(r, c.base, c.increment);
    } else if !c.isAi {
      RunOnce(r, [], Join(2, 2, 2, 0));
      assert [] + [Join(2, 2, 2, 0)] == [Join(2, 2, 2, 0)];
    }
    ClocksStayAboveFloor(r, Opening(c));
  }

  /** One millisecond against the engine: White moves at once and its clock is clamped. */
  lemma ClampBites(increment: int)
    requires increment <= -2
    ensures var r := NewAiRoom(1, increment, 1, 1, 1, 0);
      var b := Run(r, [FirstMove(0)]);
      Fresh(r) && OneReadings([FirstMove(0)]) && b.white.remaining == 0 && Budget(b, White) == increment + 1 < 0
  {
    hide Run, After, Fresh;
    var c := Config(1, increment, true, false);
    var r := RoomOf(c);
    RoomOfIsFresh(c);
    OpeningBegins(c);
    RunNone(r);
    RunOnce(r, [], FirstMove(0));
    assert [] + [FirstMove(0)] == [FirstMove(0)];
    FirstMoveIsClamped(r);
  }

  /** Every room of this configuration conserves time over every run of one-reading operations. */
  ghost predicate AlwaysConserved(c: Config) {
    forall r, es, side :: Fresh(r) && r.config == c && OneReadings(es) ==> Conserved(Run(r, es), side)
  }

  /**
   The exact condition, for every base time and every kind of room: time is conserved over all
   runs precisely when a move costs at most one millisecond more than its think time.
   */
  lemma TimeIsConservedIff(c: Config)
    requires !(c.isAi && c.reserved)
    ensures AlwaysConserved(c) <==> -1 <= c.increment
  {
    hide Run, After, Fresh, Conserved, OneReading, JustBegun;
    if -1 <= c.increment {
      forall r, es, side | Fresh(r) && r.config == c && OneReadings(es)
        ensures Conserved(Run(r, es), side)
      {
        TimeIsConserved(r, es, side);
      }
    } else {
      var r, es := RoomOf(c), Opening(c);
      var move := FirstMove(LastMoment(c.base));
      RoomOfIsFresh(c);
      OpeningBegins(c);
      RunOnce(r, es, move);
      FirstMoveIsClamped(Run(r, es));
      OneReadingEach(c);
      assert !Conserved(Run(r, es + [move]), White);
    }
  }

  lemma OneReadingEach(c: Config)
    ensures OneReadings(Opening(c) + [FirstMove(LastMoment(c.base))])
  {
  }
}
