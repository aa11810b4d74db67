/** Whose clock runs, and since when: the readings of a run, and the think times they give. */
module RoomTicks {
  import opened Types
  import opened Rules
  import opened MoveGen
  import opened San
  import opened Room
  import opened RoomRuns
  import opened RoomClocks

  /** The readings at which a clock was looked at for the record and at which the next one was started. */
  datatype Tick = Tick(look: int, stop: int)

  function TickOf(e: Event): Tick {
    match e
    case Join(_, _, _, now) => Tick(now, now)
    case Bind(_, _, _, _, _, now) => Tick(now, now)
    case Open(now) => Tick(now, now)
    case Reconnect(_, _, _, now) => Tick(now, now)
    case Submit(_, _, _, _, t) => Tick(t.think, t.stop)
    case SubmitAi(_, _, _, t) => Tick(t.think, t.stop)
    case _ => Tick(0, 0)
  }

  predicate GoesLive(a: State, b: State) {
    a.game.phase == Waiting && b.game.phase == InProgress
  }

  predicate RecordsMove(a: State, b: State) {
    |b.game.history| > |a.game.history|
  }

  /** The ticks of a run: that of the start of the game, and that of every recorded move. */
  ghost function Ticks(r: State, es: seq<Event>): seq<Tick> {
    if es == [] then
      if r.game.phase == InProgress then [Tick(r.white.clockStart, r.white.clockStart)] else []
    else
      var before := es[..|es| - 1];
      var a, b := Run(r, before), Run(r, es);
      if GoesLive(a, b) || RecordsMove(a, b) then Ticks(r, before) + [TickOf(es[|es| - 1])] else Ticks(r, before)
  }

  // ---------------------------------------------------------------- what one operation does to the clocks

  predicate SameClocks(a: State, b: State) {
    && b.game.position == a.game.position && b.game.history == a.game.history
    && b.white.clockStart == a.white.clockStart && b.black.clockStart == a.black.clockStart
  }

  /** A start sets White's clock going, a move the opponent's; anything else leaves both. */
  predicate Ticked(a: State, e: Event, b: State) {
    if GoesLive(a, b) then
      b.game.position == a.game.position && b.game.history == a.game.history && b.white.clockStart == TickOf(e).stop
    else if RecordsMove(a, b) then
      var side := a.game.position.side;
      && a.game.phase == InProgress && b.game.phase != Waiting
      && |b.game.history| == |a.game.history| + 1 && b.game.history[..|a.game.history|] == a.game.history
      && b.game.history[|a.game.history|].think == Elapsed(SeatOf(a, side).clockStart, TickOf(e).look)
      && b.game.position.side == Opposite(side) && SeatOf(b, Opposite(side)).clockStart == TickOf(e).stop
    else SameClocks(a, b) && (a.game.phase == b.game.phase || b.game.phase == Finished)
  }

  lemma PlayedTicks(r: State, m: Move, t: Readings)
    requires r.game.phase == InProgress && r.game.status == Ongoing
    ensures var b, side := Played(r, m, t), r.game.position.side;
      && |b.game.history| == |r.game.history| + 1 && b.game.history[..|r.game.history|] == r.game.history
      && b.game.history[|r.game.history|].think == Elapsed(SeatOf(r, side).clockStart, t.think)
      && b.game.position.side == Opposite(side) && SeatOf(b, Opposite(side)).clockStart == t.stop
      && b.game.phase != Waiting
  {
    hide Relocated, Captured, UpdatedRights, StatusOf, SanText, Elapsed, Announce;
  }

  lemma SubmitTicks(r: State, fd: int, from: Square, to: Square, promo: Option<Kind>, t: Readings)
    requires Sound(r)
    ensures Ticked(r, Submit(fd, from, to, promo, t), Submitted(r, fd, from, to, promo, t))
  {
    hide FollowsHistory, StatusOf, Elapsed, Chosen, Played, ColorOf, Flagged, Announce;
    var b := Bump(r);
    match MoveRefusal(b, fd, from, to, promo, t)
    case Some(_) =>
    case None =>
      var s, m := Declined(b, b.game.position.side), Chosen(b.game.position, from, to, promo).value;
      PlayedTicks(s, m, t);
  }

  lemma AiSubmitTicks(r: State, from: Square, to: Square, promo: Option<Kind>, t: Readings)
    requires Sound(r)
    ensures Ticked(r, SubmitAi(from, to, promo, t), AiSubmitted(r, from, to, promo, t))
  {
    hide FollowsHistory, StatusOf, Elapsed, Chosen, Played, Flagged, Announce;
    var b := Bump(r);
    match AiMoveRefusal(b, from, to, promo, t)
    case Some(_) =>
    case None => PlayedTicks(b, Chosen(b.game.position, from, to, promo).value, t);
  }

  lemma BindTicks(r: State, dbId: int, player: int, fd: int, replace: bool, generation: nat, now: int)
    ensures Ticked(r, Bind(dbId, player, fd, replace, generation, now), Bound(r, dbId, player, fd, replace, generation, now))
  {
    hide Announce;
  }

  lemma ReconnectTicks(r: State, dbId: int, fd: int, generation: nat, now: int)
    ensures Ticked(r, Reconnect(dbId, fd, generation, now), Reconnected(r, dbId, fd, generation, now))
  {
    hide Bound;
    BindTicks(r, dbId, dbId, fd, true, generation, now);
  }

  lemma SeatTicks(r: State, e: Event)
    requires e.Join? || e.Allow? || e.Open? || e.Disconnect? || e.ExpireOnTime? || e.ExpireDisconnected?
    ensures Ticked(r, e, After(r, e))
  {
    hide Announce, Submitted, AiSubmitted, Bound, Elapsed;
  }

  lemma OtherTicks(r: State, e: Event)
    requires !(e.Submit? || e.SubmitAi? || e.Bind? || e.Reconnect?)
    requires !(e.Join? || e.Allow? || e.Open? || e.Disconnect? || e.ExpireOnTime? || e.ExpireDisconnected?)
    ensures Ticked(r, e, After(r, e))
  {
    hide Announce, Removed;
  }

  lemma StepTicks(r: State, e: Event)
    requires Sound(r)
    ensures Ticked(r, e, After(r, e))
  {
    hide Sound, Ticked, Submitted, AiSubmitted, Bound, Reconnected;
    match e
    case Submit(fd, from, to, promo, t) => SubmitTicks(r, fd, from, to, promo, t);
    case SubmitAi(from, to, promo, t) => AiSubmitTicks(r, from, to, promo, t);
    case Bind(dbId, player, fd, replace, generation, now) => BindTicks(r, dbId, player, fd, replace, generation, now);
    case Reconnect(dbId, fd, generation, now) => ReconnectTicks(r, dbId, fd, generation, now);
    case _ => QuietTicks(r, e);
  }

  lemma QuietTicks(r: State, e: Event)
    requires !(e.Submit? || e.SubmitAi? || e.Bind? || e.Reconnect?)
    ensures Ticked(r, e, After(r, e))
  {
    hide Ticked, After;
    if e.Join? || e.Allow? || e.Open? || e.Disconnect? || e.ExpireOnTime? || e.ExpireDisconnected? {
      SeatTicks(r, e);
    } else {
      OtherTicks(r, e);
    }
  }

  // ---------------------------------------------------------------- over every run

  /** Each think time is the time from one tick to the next. */
  predicate ThinksFollow(h: seq<Record>, ts: seq<Tick>) {
    |ts| == |h| + 1 && forall i :: 0 <= i < |h| ==> h[i].think == Elapsed(ts[i].stop, ts[i + 1].look)
  }

  predicate Timed(b: State, ts: seq<Tick>) {
    && (b.game.phase == Waiting ==> ts == [] && b.game.history == [] && b.game.position.side == White)
    && (b.game.history != [] || b.game.phase == InProgress ==> ThinksFollow(b.game.history, ts))
    && (b.game.phase == InProgress ==> SeatOf(b, b.game.position.side).clockStart == ts[|ts| - 1].stop)
  }

  lemma TimedStep(a: State, e: Event, b: State, ts: seq<Tick>)
    requires Timed(a, ts) && Ticked(a, e, b)
    requires a.game.phase == Waiting ==> b.game.history == []
    requires a.game.phase == Finished ==> b.game == a.game
    ensures Timed(b, if GoesLive(a, b) || RecordsMove(a, b) then ts + [TickOf(e)] else ts)
  {
    hide Elapsed;
    var us := ts + [TickOf(e)];
    if RecordsMove(a, b) && !GoesLive(a, b) {
      forall i | 0 <= i < |b.game.history|
        ensures b.game.history[i].think == Elapsed(us[i].stop, us[i + 1].look)
      {
        assert i < |a.game.history| ==> b.game.history[i] == b.game.history[..|a.game.history|][i];
      }
    }
  }

  lemma FreshIsTimed(r: State)
    requires Fresh(r)
    ensures Timed(r, Ticks(r, []))
  {
  }

  lemma StepOrder(r: State, e: Event)
    requires Sound(r)
    ensures r.game.phase == Waiting ==> After(r, e).game.history == []
    ensures r.game.phase == Finished ==> After(r, e).game == r.game
  {
    hide After, StatusOf, FollowsHistory, Told, Apply, Legal, SanText, Verdict;
    OperationIsStep(r, e);
  }

  /**
   Over every run, whatever the readings: in a live game the clock of the side to move was
   started at the stop reading of the last recorded move, or at the start of the game; and the
   think time of each record is the time from the stop of the move before to its own reading.
   */
  lemma {:induction false} ClocksFollowTicks(r: State, es: seq<Event>)
    requires Fresh(r)
    ensures Timed(Run(r, es), Ticks(r, es))
  {
    hide After, Fresh, Sound, Timed, Ticked;
    if es == [] {
      FreshIsTimed(r);
    } else {
      var short, e := es[..|es| - 1], es[|es| - 1];
      ClocksFollowTicks(r, short);
      RunsAreSound(r, short);
      StepTicks(Run(r, short), e);
      StepOrder(Run(r, short), e);
      TimedStep(Run(r, short), e, Run(r, es), Ticks(r, short));
    }
  }

  /** With one reading per operation a tick is a single reading. */
  lemma {:induction false} TicksAreReadings(r: State, es: seq<Event>)
    requires OneReadings(es)
    ensures forall k :: 0 <= k < |Ticks(r, es)| ==> Ticks(r, es)[k].look == Ticks(r, es)[k].stop
  {
    hide Run;
    if es != [] {
      var short, e := es[..|es| - 1], es[|es| - 1];
      assert e in es && forall x :: x in short ==> x in es;
      assert OneReading(e);
      TicksAreReadings(r, short);
    }
  }

  /**
   A two-player game in numbers: the second player joins at `start`, White moves at `first`;
   Black's clock has then run since `first`, not since the start.
   */
  lemma ReplyIsCountedFromMove(base: int, start: int, first: int)
    requires base - Elapsed(start, first) > 0
    ensures var r := NewRoom(base, 0, 1, 1, 1);
      var b := Run(r, [Join(2, 2, 2, start), FirstMove(first)]);
      b.black.clockStart == first && b.white.clockStart == start && |b.game.history| == 1
        && b.game.history[0].think == Elapsed(start, first)
  {
    hide After, Run, Elapsed, Played;
    var r := NewRoom(base, 0, 1, 1, 1);
    var join, move := Join(2, 2, 2, start), FirstMove(first);
    RunNone(r);
    RunOnce(r, [], join);
    RunOnce(r, [join], move);
    assert [] + [join] == [join] && [join] + [move] == [join, move];
    var a := After(r, join);
    JoinStarts(base, start);
    FirstMoveIsAccepted(a, first);
    var m: Move :| After(a, move) == Played(Bump(a), m, Readings(first, first, first));
    PlayedTicks(Bump(a), m, Readings(first, first, first));
    PlayedKeepsMoverStart(Bump(a), m, Readings(first, first, first));
  }

  lemma JoinStarts(base: int, start: int)
    ensures var a := After(NewRoom(base, 0, 1, 1, 1), Join(2, 2, 2, start));
      && a.game == Game(InProgress, START, Undecided, Ongoing, []) && ColorOf(a, 1) == Some(White)
      && a.drawOffer == None && a.white.remaining == base && a.white.clockStart == start
  {
    hide Submitted, AiSubmitted;
  }

  lemma PlayedKeepsMoverStart(r: State, m: Move, t: Readings)
    requires r.game.phase == InProgress && r.game.status == Ongoing
    ensures SeatOf(Played(r, m, t), r.game.position.side).clockStart == SeatOf(r, r.game.position.side).clockStart
  {
    hide Relocated, Captured, UpdatedRights, StatusOf, SanText, Elapsed, Announce;
  }
}
