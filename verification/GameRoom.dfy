/**
 The live game room: one lock, about twenty operations, each one critical section.  Every
 method is proved to take the room where Room.dfy says, and RoomRuns.dfy
 proves what every run of those operations keeps.  Callbacks run only while the lock is free.
 */
module GameRooms {
  import opened Types
  import opened Rules
  import opened Reversal
  import opened Invariant
  import opened Zobrist
  import opened BoardState
  import opened MoveGen
  import opened San
  import opened Uci
  import opened Fen
  import opened Room

  datatype MoveResult =
    | Refused(reason: Refusal)
    | Accepted(
        san: string,
        status: GameStatus,
        whiteMs: int,
        blackMs: int,
        fen: string,
        legalMoves: seq<string>,
        offerDeclined: bool)

  /** `texts` are exactly the UCI texts of the legal moves of `p`. */
  ghost predicate ListsLegalMoves(p: Position, texts: seq<string>) {
    && (forall m: Move :: Legal(p, m) ==> ToUci(m) in texts)
    && (forall t :: t in texts ==> exists m: Move :: Legal(p, m) && ToUci(m) == t)
  }

  /** What an accepted move reports about the room it left. */
  ghost predicate Reports(b: State, result: MoveResult) {
    && result.Accepted?
    && b.game.history != [] && result.san == b.game.history[|b.game.history| - 1].san
    && result.status == StatusOf(b.game.position)
    && result.whiteMs == b.white.remaining && result.blackMs == b.black.remaining
    && result.fen == ToFen(b.game.position)
    && (if result.status == Ongoing then ListsLegalMoves(b.game.position, result.legalMoves) else result.legalMoves == [])
  }

  lemma DeliveredReports(b: State, calls: seq<Call>, answer: MoveResult)
    ensures Reports(Delivered(b, calls), answer) == Reports(b, answer)
  {
    hide StatusOf, ToFen, ListsLegalMoves;
  }

  lemma DeclinedFields(r: State, mover: Color)
    ensures Declined(r, mover).game == r.game
  {
  }

  /** A completion queued under the lock: the event, the listeners of that moment, the commit callback. */
  datatype Completion = Completion(snapshot: Snapshot, listeners: seq<int>, callback: bool)

  class GameRoom {
    const config: Config
    const board: Board
    ghost var position: Position
    var phase: Phase
    var result: Result
    var status: GameStatus
    var white: Seat
    var black: Seat
    var reservedOpen: bool
    var history: seq<Record>
    var drawOffer: Option<Offer>
    var rematchOffer: Option<Offer>
    var spectators: seq<int>
    var listeners: seq<int>
    var revision: nat

    var locked: bool
    var pending: Option<Completion>
    var sent: Sent

    ghost function View(): State
      reads this
    {
      State(config, Game(phase, position, result, status, history), white, black,
        reservedOpen, drawOffer, rematchOffer, spectators, listeners, revision, sent)
    }

    /** Between operations the lock is free and nothing waits to be delivered. */
    ghost predicate Valid()
      reads this, board, board.squares
    {
      board.Valid() && board.View() == position && Inv(position) && !locked && pending == None
    }

    // -------------------------------------------------------------- construction

    constructor Open(keys: Keys, base: int, increment: int, player: int, fd: int, dbId: int)
      ensures Valid() && fresh(board) && fresh(board.squares)
      ensures View() == NewRoom(base, increment, player, fd, dbId)
    {
      hide Inv, Hash;
      config := Config(base, increment, false, false);
      board := new Board.StartingPosition(keys);
      position := START;
      phase, result, status := Waiting, Undecided, Ongoing;
      white := Seat(fd, 0, player, dbId, base, true, false, 0, 0);
      black := EMPTY_SEAT;
      reservedOpen, drawOffer, rematchOffer := false, None, None;
      history, spectators, listeners, revision := [], [], [], 0;
      locked, pending, sent := false, None, Sent([], []);
      new;
      StartSatisfiesInvariant();
    }

    constructor OpenAgainstAi(keys: Keys, base: int, increment: int, player: int, fd: int, dbId: int, now: int)
      ensures Valid() && fresh(board) && fresh(board.squares)
      ensures View() == NewAiRoom(base, increment, player, fd, dbId, now)
    {
      hide Inv, Hash;
      config := Config(base, increment, true, false);
      board := new Board.StartingPosition(keys);
      position := START;
      phase, result, status := InProgress, Undecided, Ongoing;
      white := Seat(fd, 0, player, dbId, base, true, false, 0, now);
      black := Seat(AI_FD, 0, 0, 0, base, true, false, 0, 0);
      reservedOpen, drawOffer, rematchOffer := false, None, None;
      history, spectators, listeners, revision := [], [], [], 0;
      locked, pending, sent := false, None, Sent([], []);
      new;
      StartSatisfiesInvariant();
    }

    constructor Reserve(keys: Keys, base: int, increment: int, whiteDb: int, blackDb: int)
      ensures Valid() && fresh(board) && fresh(board.squares)
      ensures View() == NewReservedRoom(base, increment, whiteDb, blackDb)
    {
      hide Inv, Hash;
      config := Config(base, increment, false, true);
      board := new Board.StartingPosition(keys);
      position := START;
      phase, result, status := Waiting, Undecided, Ongoing;
      white := EMPTY_SEAT.(dbId := whiteDb, remaining := base);
      black := EMPTY_SEAT.(dbId := blackDb, remaining := base);
      reservedOpen, drawOffer, rematchOffer := false, None, None;
      history, spectators, listeners, revision := [], [], [], 0;
      locked, pending, sent := false, None, Sent([], []);
      new;
      StartSatisfiesInvariant();
    }

    // -------------------------------------------------------------- the lock, and draining it

    method Lock()
      requires !locked
      modifies this`locked
      ensures locked && View() == old(View())
    {
      locked := true;
    }

    /** One callback; it may only run while the lock is free. */
    method Invoke(c: Call)
      requires !locked
      modifies this`sent
      ensures sent == old(sent).(calls := old(sent).calls + [c])
    {
      sent := sent.(calls := sent.calls + [c]);
    }

    /** The commit callback, then one call per listener, all while the lock is free. */
    method Deliver(done: Completion)
      requires !locked
      modifies this`sent
      ensures sent == old(sent).(calls := old(sent).calls + Calls(done.callback, done.listeners, done.snapshot))
    {
      if done.callback {
        Invoke(Committed);
      }
      ghost var all := Announce(done.listeners, done.snapshot);
      ghost var first := sent;
      for i := 0 to |done.listeners|
        invariant sent == first.(calls := first.calls + all[..i])
      {
        assert all[..i + 1] == all[..i] + [all[i]];
        Invoke(Completed(done.listeners[i], done.snapshot));
      }
      assert all[..|done.listeners|] == all;
    }

    /** Takes the queued completion out, frees the lock, and only then makes the calls. */
    method Unlock()
      requires locked
      modifies this`locked, this`pending, this`sent
      ensures !locked && pending == None
      ensures View() == if old(pending) == None then old(View()) else
        var done := old(pending).value;
        Delivered(old(View()), Calls(done.callback, done.listeners, done.snapshot))
    {
      hide Calls;
      var event := pending;
      pending := None;
      locked := false;
      if event.Some? {
        Deliver(event.value);
      }
    }

    /** Copies the listeners under the lock and tells them of the start outside it. */
    method EmitStarted()
      requires !locked
      modifies this`locked, this`sent
      ensures !locked && View() == StartTold(old(View()))
    {
      locked := true;
      var toFire := listeners;
      locked := false;
      ghost var first := sent;
      for i := 0 to |toFire|
        invariant !locked && sent == first.(starts := first.starts + toFire[..i])
      {
        assert toFire[..i + 1] == toFire[..i] + [toFire[i]];
        sent := sent.(starts := sent.starts + [toFire[i]]);
      }
      assert toFire[..|toFire|] == toFire;
    }

    /** Commits the terminal state and queues the completion for the listeners of this moment. */
    method FinishGame(s: GameStatus, r: Result, callback: bool)
      requires locked
      modifies this`phase, this`status, this`result, this`pending
      ensures View() == Ended(old(View()), s, r)
      ensures pending == Some(Completion(SnapshotOf(View()), View().listeners, callback))
    {
      phase := Finished;
      status := s;
      result := r;
      pending := Some(Completion(Snapshot(status, result, white, black, history, revision), listeners, callback));
    }

    // -------------------------------------------------------------- helpers under the lock

    lemma PositionInView()
      ensures View().game.position == position
    {
    }

    function SeatColor(fd: int): (c: Option<Color>)
      reads this
      ensures c == ColorOf(View(), fd)
    {
      if white.fd == fd then Some(White) else if black.fd == fd then Some(Black) else None
    }

    function SeatColorOfDb(dbId: int): (c: Option<Color>)
      reads this
      ensures c == ColorOfDb(View(), dbId)
    {
      if white.dbId == dbId then Some(White) else if black.dbId == dbId then Some(Black) else None
    }

    function GetSeat(c: Color): (s: Seat)
      reads this
      ensures s == SeatOf(View(), c)
    {
      if c == White then white else black
    }

    method PutSeat(c: Color, s: Seat)
      modifies this`white, this`black
      ensures View() == WithSeat(old(View()), c, s)
    {
      if c == White {
        white := s;
      } else {
        black := s;
      }
    }

    method BumpRevision()
      modifies this`revision
      ensures View() == Bump(old(View()))
    {
      revision := revision + 1;
    }

    method SetDrawOffer(o: Option<Offer>)
      modifies this`drawOffer
      ensures View() == old(View()).(drawOffer := o)
    {
      drawOffer := o;
    }

    method SetRematchOffer(o: Option<Offer>)
      modifies this`rematchOffer
      ensures View() == old(View()).(rematchOffer := o)
    {
      rematchOffer := o;
    }

    method CheckFlag(now: int) returns (flagged: bool)
      requires board.Valid() && board.View() == position
      ensures flagged <==> Flagged(View(), now)
    {
      if phase != InProgress {
        return false;
      }
      var active := GetSeat(board.side);
      var elapsed := Elapsed(active.clockStart, now);
      flagged := active.remaining - elapsed <= 0;
    }

    /** After a move: the side that just moved pays, gains the increment, and the other clock runs. */
    method StopAndSwitch(now: int)
      requires board.Valid() && board.View() == position
      modifies this`white, this`black
      ensures View() == SwitchClock(old(View()), Opposite(position.side), now)
    {
      hide Elapsed;
      var justMoved := Opposite(board.side);
      var mover := GetSeat(justMoved);
      var elapsed := Elapsed(mover.clockStart, now);
      mover := mover.(remaining := mover.remaining - elapsed);
      mover := mover.(remaining := mover.remaining + config.increment);
      if mover.remaining < 0 {
        mover := mover.(remaining := 0);
      }
      PutSeat(justMoved, mover);
      PutSeat(Opposite(justMoved), GetSeat(Opposite(justMoved)).(clockStart := now));
    }

    /** The first legal move that fits the request. */
    method FindMatch(from: Square, to: Square, promo: Option<Kind>) returns (m: Option<Move>)
      requires board.Valid() && Inv(board.View())
      ensures m == Chosen(board.View(), from, to, promo)
    {
      hide Inv, Legal, Asked;
      ghost var p := board.View();
      var legal := GenerateLegalMoves(board);
      for i := 0 to |legal|
        invariant forall j :: 0 <= j < i ==> !Asked(legal[j], from, to, promo)
      {
        assert legal[i] in legal;
        var fits := Fits(legal[i], from, to, promo);
        if fits {
          RequestNamesOneMove(p, legal[i], from, to, promo);
          return Some(legal[i]);
        }
      }
      ChosenIsLegal(p, from, to, promo);
      m := None;
    }

    static method Fits(m: Move, from: Square, to: Square, promo: Option<Kind>) returns (fits: bool)
      ensures fits <==> Asked(m, from, to, promo)
    {
      if m.from != from || m.to != to {
        return false;
      }
      if m.flags.promotion {
        var kind := if promo == None then Queen else promo.value;
        return m.promo == Some(kind);
      }
      return true;
    }

    method LegalMoveTexts() returns (texts: seq<string>)
      requires board.Valid() && Inv(board.View())
      ensures ListsLegalMoves(board.View(), texts)
    {
      hide Inv, Legal, ToUci;
      var legal := GenerateLegalMoves(board);
      texts := [];
      for i := 0 to |legal|
        invariant |texts| == i
        invariant forall j :: 0 <= j < i ==> texts[j] == ToUci(legal[j])
      {
        texts := texts + [ToUci(legal[i])];
      }
      forall m: Move | Legal(board.View(), m)
        ensures ToUci(m) in texts
      {
        var j :| 0 <= j < |legal| && legal[j] == m;
        assert texts[j] == ToUci(m);
      }
      forall t | t in texts
        ensures exists m: Move :: Legal(board.View(), m) && ToUci(m) == t
      {
        var j :| 0 <= j < |texts| && texts[j] == t;
        assert legal[j] in legal;
      }
    }

    // -------------------------------------------------------------- joining and binding

    method Join(player: int, fd: int, dbId: int, now: int) returns (joined: bool)
      requires Valid()
      modifies this
      ensures Valid() && View() == Joined(old(View()), player, fd, dbId, now)
      ensures joined <==> MayJoin(old(View()))
    {
      hide Inv, View, StartTold, Running, MayJoin;
      Lock();
      joined := SeatJoiner(player, fd, dbId, now);
      Unlock();
      if joined {
        EmitStarted();
      }
    }

    method SeatJoiner(player: int, fd: int, dbId: int, now: int) returns (joined: bool)
      modifies this`revision, this`black, this`white, this`phase
      ensures joined <==> MayJoin(old(View()))
      ensures View() == if joined then Running(JoinerSeated(old(View()), player, fd, dbId), now) else old(View())
    {
      joined := phase == Waiting && !config.reserved && black.fd == NO_FD;
      if joined {
        revision := revision + 1;
        black := black.(fd := fd, player := player, dbId := dbId, remaining := config.base, connected := true);
        phase := InProgress;
        white := white.(clockStart := now);
      }
    }

    /** An identified tournament player takes its reserved seat; the game starts when both are there. */
    method BindReserved(dbId: int, player: int, fd: int, replace: bool, generation: nat, now: int)
      returns (refusal: Option<Refusal>)
      requires Valid()
      modifies this
      ensures Valid() && View() == Bound(old(View()), dbId, player, fd, replace, generation, now)
      ensures refusal == BindRefusal(old(View()), dbId, fd, replace, generation)
    {
      hide Inv, View, StartTold, Running, Ready, Seated, ColorOfDb;
      Lock();
      refusal := CheckBinding(dbId, fd, replace, generation);
      var started := false;
      if refusal == None {
        TakeSeat(SeatColorOfDb(dbId).value, player, fd, generation);
        started := StartIfReady(now);
      }
      Unlock();
      if started {
        EmitStarted();
      }
    }

    method CheckBinding(dbId: int, fd: int, replace: bool, generation: nat) returns (refusal: Option<Refusal>)
      ensures refusal == BindRefusal(View(), dbId, fd, replace, generation)
    {
      if !config.reserved {
        return Some(NotReserved);
      }
      if phase == Finished {
        return Some(GameFinished);
      }
      var c := SeatColorOfDb(dbId);
      if c == None {
        return Some(NotAPlayer);
      }
      var seat := GetSeat(c.value);
      if !seat.checkedIn {
        return Some(NotCheckedIn);
      }
      if generation < seat.generation {
        return Some(Replaced);
      }
      if seat.connected && seat.fd != fd && !replace {
        return Some(SeatTaken);
      }
      return None;
    }

    method TakeSeat(c: Color, player: int, fd: int, generation: nat)
      modifies this`white, this`black, this`revision
      ensures View() == Seated(old(View()), c, player, fd, generation)
    {
      var seat := GetSeat(c);
      if !seat.connected || seat.fd != fd {
        revision := revision + 1;
        seat := seat.(player := player, fd := fd, connected := true, disconnectedAt := 0);
      }
      PutSeat(c, seat.(generation := generation));
    }

    method StartIfReady(now: int) returns (started: bool)
      modifies this`phase, this`white
      ensures started <==> Ready(old(View()))
      ensures View() == if started then Running(old(View()), now) else old(View())
    {
      started := reservedOpen && phase == Waiting && white.connected && black.connected;
      if started {
        phase := InProgress;
        white := white.(clockStart := now);
      }
    }

    method AllowReserved(dbId: int) returns (ok: bool)
      requires Valid()
      modifies this
      ensures Valid() && View() == Allowed(old(View()), dbId)
      ensures ok <==> MayOpen(old(View())) && ColorOfDb(old(View()), dbId).Some?
    {
      hide Inv, View, ColorOfDb, WithSeat;
      Lock();
      ok := MayStillOpen();
      var c := SeatColorOfDb(dbId);
      ok := ok && c.Some?;
      if ok {
        PutSeat(c.value, GetSeat(c.value).(checkedIn := true));
      }
      Unlock();
    }

    method MayStillOpen() returns (ok: bool)
      ensures ok <==> MayOpen(View())
    {
      ok := config.reserved && phase != Finished;
    }

    /** The scheduled start is reached: the game starts now if both players are there. */
    method OpenReserved(now: int) returns (ok: bool)
      requires Valid()
      modifies this
      ensures Valid() && View() == Opened(old(View()), now)
      ensures ok <==> MayOpen(old(View()))
    {
      hide Inv, View, StartTold, MayOpen, BothConnected;
      Lock();
      ok := MayStillOpen();
      var started := false;
      if ok {
        SetOpen();
        started := StartIfReady(now);
        if started {
          BumpRevision();
        }
      }
      Unlock();
      if started {
        EmitStarted();
      }
    }

    method SetOpen()
      modifies this`reservedOpen
      ensures View() == old(View()).(reservedOpen := true)
    {
      reservedOpen := true;
    }

    // -------------------------------------------------------------- moves

    /** The matched move is made on the board and recorded. */
    method RecordMove(m: Move, t: Readings) returns (san: string)
      requires board.Valid() && board.View() == position && Inv(position) && Legal(position, m)
      modifies this`position, this`history, board, board.squares
      ensures board.Valid() && board.View() == position && Inv(position)
      ensures View() == Recorded(old(View()), m, t)
      ensures history != [] && history[|history| - 1].san == san
      ensures position.side == Opposite(old(position.side)) && View().game.position == position
    {
      hide Inv, Legal, Relocated, Captured, UpdatedRights, SanText, Hash, Elapsed;
      LegalMoveIsPlayable(position, m);
      LegalMoveKeepsInvariant(position, m);
      san := MoveToSan(board, m);
      var think := Elapsed(GetSeat(board.side).clockStart, t.think);
      var undo := board.MakeMove(m);
      position := board.View();
      history := history + [Record(m, san, think)];
    }

    /** Everything an accepted move tells its caller. */
    method Report(san: string, s: GameStatus, declined: bool) returns (answer: MoveResult)
      requires board.Valid() && board.View() == position && Inv(position)
      requires s == StatusOf(position) && history != [] && history[|history| - 1].san == san
      ensures Reports(View(), answer) && answer.offerDeclined == declined
    {
      hide Inv, StatusOf, ToFen, ListsLegalMoves;
      var fen := WriteFen(board);
      var texts := [];
      if s == Ongoing {
        texts := LegalMoveTexts();
      }
      answer := Accepted(san, s, white.remaining, black.remaining, fen, texts, declined);
    }

    /** Makes a matched move, switches the clocks, and finishes the game if it is over. */
    method PlayMatched(m: Move, t: Readings, declined: bool) returns (answer: MoveResult)
      requires board.Valid() && board.View() == position && Inv(position) && Legal(position, m)
      requires locked && pending == None
      modifies this`position, this`history, this`white, this`black, this`phase, this`status, this`result, this`pending,
        board, board.squares
      ensures board.Valid() && board.View() == position && Inv(position)
      ensures var next := Advanced(old(View()), m, t);
        var s := StatusOf(next.game.position);
        if s == Ongoing then View() == next && pending == None
        else
          && View() == Ended(next, s, BoardResult(s, next.game.position.side))
          && pending == Some(Completion(SnapshotOf(View()), View().listeners, false))
      ensures Reports(View(), answer) && answer.offerDeclined == declined
    {
      hide Inv, Legal, StatusOf, Reports, View, SwitchClock, Recorded, BoardResult, Ended;
      PositionInView();
      var san := RecordMove(m, t);
      StopAndSwitch(t.stop);
      PositionInView();
      var s := GetGameStatus(board);
      if s != Ongoing {
        FinishGame(s, BoardResult(s, board.side), false);
      }
      answer := Report(san, s, declined);
    }

    /** The checks of a player's move, in order, up to the search for the move itself. */
    method CheckMove(fd: int, flag: int) returns (refusal: Option<Refusal>)
      requires board.Valid() && board.View() == position
      ensures refusal == EarlyRefusal(View(), fd, flag)
    {
      if phase != InProgress {
        return Some(NotInProgress);
      }
      var c := SeatColor(fd);
      if c == None {
        return Some(NotAPlayer);
      }
      if c.value != board.side {
        return Some(NotYourTurn);
      }
      var flagged := CheckFlag(flag);
      return if flagged then Some(OutOfTime) else None;
    }

    method DeclineDraw(mover: Color) returns (declined: bool)
      modifies this`drawOffer
      ensures View() == Declined(old(View()), mover)
      ensures declined <==> Declines(old(View()), mover)
    {
      declined := drawOffer.Some? && drawOffer.value.from != mover;
      if declined {
        drawOffer := None;
      }
    }

    method SubmitMove(fd: int, from: Square, to: Square, promo: Option<Kind>, t: Readings) returns (answer: MoveResult)
      requires Valid()
      modifies this, board, board.squares
      ensures Valid() && View() == Submitted(old(View()), fd, from, to, promo, t)
      ensures match MoveRefusal(Bump(old(View())), fd, from, to, promo, t)
        case Some(reason) => answer == Refused(reason)
        case None => Reports(View(), answer) && answer.offerDeclined == Declines(old(View()), old(position.side))
    {
      hide Inv, View, Legal, StatusOf, Reports, EarlyRefusal, Advanced, BoardResult, Ended, Chosen, Asked, Declined, Calls;
      PositionInView();
      Lock();
      BumpRevision();
      ghost var b := View();
      PositionInView();
      var refusal := CheckMove(fd, t.flag);
      if refusal.Some? {
        answer := Refused(refusal.value);
        if refusal == Some(OutOfTime) {
          FinishGame(Timeout, WinFor(Opposite(board.side)), false);
        }
      } else {
        var m := FindMatch(from, to, promo);
        if m == None {
          answer := Refused(IllegalMove);
        } else {
          ChosenIsLegal(position, from, to, promo);
          var declined := DeclineDraw(board.side);
          DeclinedFields(b, board.side);
          answer := PlayMatched(m.value, t, declined);
          forall calls {
            DeliveredReports(View(), calls, answer);
          }
        }
      }
      Unlock();
    }

    method CheckAiMove(flag: int) returns (refusal: Option<Refusal>)
      requires board.Valid() && board.View() == position
      ensures refusal == EarlyAiRefusal(View(), flag)
    {
      if phase != InProgress {
        return Some(NotInProgress);
      }
      if !config.isAi {
        return Some(NotAnAiGame);
      }
      if board.side != Black {
        return Some(NotYourTurn);
      }
      var flagged := CheckFlag(flag);
      return if flagged then Some(OutOfTime) else None;
    }

    /** A move of the AI, which plays Black; unlike a player's, its fallen clock is set to zero. */
    method SubmitMoveAi(from: Square, to: Square, promo: Option<Kind>, t: Readings) returns (answer: MoveResult)
      requires Valid()
      modifies this, board, board.squares
      ensures Valid() && View() == AiSubmitted(old(View()), from, to, promo, t)
      ensures match AiMoveRefusal(Bump(old(View())), from, to, promo, t)
        case Some(reason) => answer == Refused(reason)
        case None => Reports(View(), answer) && !answer.offerDeclined
    {
      hide Inv, View, Legal, StatusOf, Reports, EarlyAiRefusal, Advanced, BoardResult, Ended, Chosen, Asked, Calls;
      Lock();
      BumpRevision();
      PositionInView();
      var refusal := CheckAiMove(t.flag);
      if refusal.Some? {
        answer := Refused(refusal.value);
        if refusal == Some(OutOfTime) {
          PutSeat(Black, GetSeat(Black).(remaining := 0));
          FinishGame(Timeout, WhiteWins, false);
        }
      } else {
        var m := FindMatch(from, to, promo);
        if m == None {
          answer := Refused(IllegalMove);
        } else {
          ChosenIsLegal(position, from, to, promo);
          answer := PlayMatched(m.value, t, false);
          forall calls {
            DeliveredReports(View(), calls, answer);
          }
        }
      }
      Unlock();
    }

    // -------------------------------------------------------------- resignation and offers

    method CheckResign(fd: int) returns (ok: bool)
      ensures ok <==> MayResign(View(), fd)
    {
      ok := phase == InProgress && SeatColor(fd).Some?;
    }

    /** The callback, if any, runs after the result is committed and before the listeners hear of it. */
    method Resign(fd: int, callback: bool) returns (ok: bool)
      requires Valid()
      modifies this
      ensures Valid() && View() == Resigned(old(View()), fd, callback)
      ensures ok <==> MayResign(Bump(old(View())), fd)
    {
      hide Inv, View, Ended, Calls, ColorOf;
      Lock();
      BumpRevision();
      ok := CheckResign(fd);
      if ok {
        FinishGame(Resignation, WinFor(Opposite(SeatColor(fd).value)), callback);
      }
      Unlock();
    }

    method CheckDrawOffer(fd: int) returns (refusal: Option<Refusal>)
      ensures refusal == DrawRefusal(View(), fd)
    {
      if phase != InProgress {
        return Some(NotInProgress);
      }
      if config.isAi {
        return Some(AiGame);
      }
      var offerer := SeatColor(fd);
      if offerer == None {
        return Some(NotAPlayer);
      }
      if !GetSeat(Opposite(offerer.value)).connected {
        return Some(OpponentGone);
      }
      if drawOffer.Some? {
        return if drawOffer.value.from == offerer.value then Some(AlreadyOffered) else Some(AnswerFirst);
      }
      return None;
    }

    method OfferDraw(fd: int, now: int) returns (refusal: Option<Refusal>)
      requires Valid()
      modifies this
      ensures Valid() && View() == DrawOffered(old(View()), fd, now)
      ensures refusal == DrawRefusal(old(View()), fd)
    {
      hide Inv, View, ColorOf;
      Lock();
      refusal := CheckDrawOffer(fd);
      if refusal == None {
        var offerer := SeatColor(fd).value;
        BumpRevision();
        SetDrawOffer(Some(Offer(offerer, now)));
      }
      Unlock();
    }

    method CheckAnswer(due: Phase, offer: Option<Offer>, fd: int) returns (refusal: Option<Refusal>)
      ensures refusal == if phase != due then Some(NoOffer) else AnswerRefusal(View(), offer, fd)
    {
      if phase != due || offer == None {
        return Some(NoOffer);
      }
      var responder := SeatColor(fd);
      if responder == None {
        return Some(NotAPlayer);
      }
      return if responder.value == offer.value.from then Some(OwnOffer) else None;
    }

    /** Accepting ends the game as a draw; either answer removes the offer. */
    method RespondToDraw(fd: int, accept: bool) returns (refusal: Option<Refusal>)
      requires Valid()
      modifies this
      ensures Valid() && View() == DrawAnswered(old(View()), fd, accept)
      ensures refusal == DrawAnswerRefusal(old(View()), fd)
    {
      hide Inv, View, AnswerRefusal, Ended, Calls;
      Lock();
      OffersInView();
      refusal := CheckAnswer(InProgress, drawOffer, fd);
      if refusal == None {
        BumpRevision();
        SetDrawOffer(None);
        if accept {
          FinishGame(DrawAgreement, Drawn, false);
        }
      }
      Unlock();
    }

    lemma OffersInView()
      ensures View().game.phase == phase && View().drawOffer == drawOffer && View().rematchOffer == rematchOffer
    {
    }

    method ExpireDrawOffer(ttl: int, now: int) returns (offerer: Option<Color>)
      requires Valid()
      modifies this
      ensures Valid() && View() == DrawExpired(old(View()), ttl, now)
      ensures offerer ==
        if old(phase) == InProgress && OfferDue(old(drawOffer), ttl, now) then Some(old(drawOffer).value.from) else None
    {
      hide Inv, View;
      Lock();
      OffersInView();
      offerer := None;
      if phase == InProgress && drawOffer.Some? && now - drawOffer.value.at >= ttl * NANOS_PER_MILLI {
        offerer := Some(drawOffer.value.from);
        BumpRevision();
        SetDrawOffer(None);
      }
      Unlock();
    }

    method CheckRematch(fd: int) returns (refusal: Option<Refusal>)
      ensures refusal == RematchRefusal(View(), fd)
    {
      if phase != Finished {
        return Some(NotFinished);
      }
      if config.isAi {
        return Some(AiGame);
      }
      if config.reserved {
        return Some(TournamentGame);
      }
      var offerer := SeatColor(fd);
      if offerer == None {
        return Some(NotAPlayer);
      }
      var opponent := GetSeat(Opposite(offerer.value));
      if !opponent.connected || opponent.fd < 0 {
        return Some(OpponentGone);
      }
      if rematchOffer.Some? {
        return if rematchOffer.value.from == offerer.value then Some(AlreadyOffered) else Some(AnswerFirst);
      }
      return None;
    }

    method OfferRematch(fd: int, now: int) returns (refusal: Option<Refusal>)
      requires Valid()
      modifies this
      ensures Valid() && View() == RematchOffered(old(View()), fd, now)
      ensures refusal == RematchRefusal(old(View()), fd)
    {
      hide Inv, View, ColorOf;
      Lock();
      refusal := CheckRematch(fd);
      if refusal == None {
        var offerer := SeatColor(fd).value;
        BumpRevision();
        SetRematchOffer(Some(Offer(offerer, now)));
      }
      Unlock();
    }

    /** Either answer removes the offer; making the new room is the caller's affair. */
    method RespondToRematch(fd: int) returns (refusal: Option<Refusal>, offerer: Option<Color>)
      requires Valid()
      modifies this
      ensures Valid() && View() == RematchAnswered(old(View()), fd)
      ensures refusal == RematchAnswerRefusal(old(View()), fd)
      ensures offerer == if refusal == None && old(rematchOffer).Some? then Some(old(rematchOffer).value.from) else None
    {
      hide Inv, View;
      Lock();
      OffersInView();
      offerer := None;
      refusal := CheckAnswer(Finished, rematchOffer, fd);
      if refusal == None {
        offerer := Some(rematchOffer.value.from);
        BumpRevision();
        SetRematchOffer(None);
      }
      Unlock();
    }

    method ExpireRematchOffer(ttl: int, now: int) returns (offerer: Option<Color>)
      requires Valid()
      modifies this
      ensures Valid() && View() == RematchExpired(old(View()), ttl, now)
      ensures offerer ==
        if old(phase) == Finished && OfferDue(old(rematchOffer), ttl, now) then Some(old(rematchOffer).value.from) else None
    {
      hide Inv, View;
      Lock();
      OffersInView();
      offerer := None;
      if phase == Finished && rematchOffer.Some? && now - rematchOffer.value.at >= ttl * NANOS_PER_MILLI {
        offerer := Some(rematchOffer.value.from);
        BumpRevision();
        SetRematchOffer(None);
      }
      Unlock();
    }

    // -------------------------------------------------------------- clocks and connections

    /** The periodic flag check: the side to move has run out of time. */
    method ExpireOnTime(now: int) returns (ended: bool)
      requires Valid()
      modifies this
      ensures Valid() && View() == TimeExpired(old(View()), now)
      ensures ended <==> Flagged(old(View()), now)
    {
      hide Inv, View, Flagged, Ended, Calls;
      Lock();
      PositionInView();
      ended := CheckFlag(now);
      if ended {
        var flagged := board.side;
        var slot := GetSeat(flagged).(remaining := 0);
        BumpRevision();
        PutSeat(flagged, slot);
        FinishGame(Timeout, WinFor(Opposite(flagged)), false);
      }
      Unlock();
    }

    /** A seat loses its connection; a waiting room that is not reserved ends, a live game's clock runs on. */
    method OnDisconnect(fd: int, now: int)
      requires Valid()
      modifies this
      ensures Valid() && View() == Disconnected(old(View()), fd, now)
    {
      hide Inv, View, ColorOf, Ended, Calls;
      Lock();
      var c := SeatColor(fd);
      if c.Some? && GetSeat(c.value).connected {
        var seat := GetSeat(c.value).(connected := false, disconnectedAt := now, fd := NO_FD);
        BumpRevision();
        PutSeat(c.value, seat);
        OffersInView();
        ConfigInView();
        if phase == Waiting && !config.reserved {
          FinishGame(Resignation, Undecided, false);
        }
      }
      Unlock();
    }

    /** An authenticated player comes back on a new connection. */
    method OnReconnect(dbId: int, fd: int, generation: nat, now: int) returns (ok: bool)
      requires Valid()
      modifies this
      ensures Valid() && View() == Reconnected(old(View()), dbId, fd, generation, now)
      ensures ok <==> MayReconnect(old(View()), dbId, fd, generation)
    {
      hide Inv, View, ColorOfDb, Seated, Bound, BindRefusal;
      ConfigInView();
      if config.reserved {
        var refusal := BindReserved(dbId, dbId, fd, true, generation, now);
        return refusal == None;
      }
      Lock();
      var c := SeatColorOfDb(dbId);
      ok := dbId > 0 && c.Some?;
      if ok {
        var seat := GetSeat(c.value);
        ok := generation >= seat.generation;
        if ok {
          TakeSeat(c.value, seat.player, fd, generation);
        }
      }
      Unlock();
    }

    lemma ConfigInView()
      ensures View().config == config
    {
    }

    method CheckAbandoned(grace: int, now: int) returns (whiteGone: bool, blackGone: bool)
      ensures whiteGone <==> phase == InProgress && GraceOver(View().white, grace, now)
      ensures blackGone <==> phase == InProgress && GraceOver(View().black, grace, now)
    {
      whiteGone := phase == InProgress && !white.connected && now - white.disconnectedAt >= grace * NANOS_PER_MILLI;
      blackGone := phase == InProgress && !black.connected && now - black.disconnectedAt >= grace * NANOS_PER_MILLI;
    }

    /** A seat away for the whole grace forfeits. */
    method ExpireDisconnected(grace: int, now: int) returns (ended: bool)
      requires Valid()
      modifies this
      ensures Valid() && View() == Abandoned(old(View()), grace, now)
      ensures ended <==> old(phase) == InProgress && View().game.phase == Finished
    {
      hide Inv, View, GraceOver, Calls;
      Lock();
      OffersInView();
      var whiteGone, blackGone := CheckAbandoned(grace, now);
      ended := whiteGone || blackGone;
      if ended {
        var w, b := GetSeat(White).disconnectedAt, GetSeat(Black).disconnectedAt;
        var r := WhiteWins;
        if whiteGone && blackGone && w == b {
          r := Drawn;
        } else if whiteGone && (!blackGone || w < b) {
          r := BlackWins;
        }
        BumpRevision();
        FinishGame(Abandonment, r, false);
      }
      Unlock();
    }

    // -------------------------------------------------------------- listeners and spectators

    /** Registering twice is legal and gives two calls. */
    method AddListener(l: int)
      requires Valid()
      modifies this
      ensures Valid() && View() == ListenerAdded(old(View()), l)
    {
      hide Inv;
      locked := true;
      listeners := listeners + [l];
      locked := false;
    }

    /** `s` without its first `x`, found by a scan. */
    static method Erase(s: seq<int>, x: int) returns (t: seq<int>, found: bool)
      ensures t == Removed(s, x) && (found <==> x in s)
    {
      for i := 0 to |s|
        invariant x !in s[..i]
        invariant Removed(s, x) == s[..i] + Removed(s[i..], x)
      {
        if s[i] == x {
          return s[..i] + s[i + 1..], true;
        }
        assert s[i..][1..] == s[i + 1..] && s[..i + 1] == s[..i] + [s[i]];
      }
      assert s[|s|..] == [] && s[..|s|] == s;
      return s, false;
    }

    method RemoveListener(l: int) returns (removed: bool)
      requires Valid()
      modifies this
      ensures Valid() && View() == ListenerRemoved(old(View()), l)
      ensures removed <==> l in old(listeners)
    {
      hide Inv;
      locked := true;
      listeners, removed := Erase(listeners, l);
      locked := false;
    }

    method AddSpectator(fd: int) returns (ok: bool)
      requires Valid()
      modifies this
      ensures Valid() && View() == SpectatorAdded(old(View()), fd)
      ensures ok <==> MayWatch(old(View()), fd)
    {
      hide Inv, View;
      Lock();
      BumpRevision();
      ok := AdmitSpectator(fd);
      Unlock();
    }

    method AdmitSpectator(fd: int) returns (ok: bool)
      modifies this`spectators
      ensures ok <==> MayWatch(old(View()), fd)
      ensures View() == if ok && fd !in old(View()).spectators
        then old(View()).(spectators := old(View()).spectators + [fd]) else old(View())
    {
      ok := phase == InProgress && fd != white.fd && fd != black.fd;
      if ok && fd !in spectators {
        spectators := spectators + [fd];
      }
    }

    method RemoveSpectator(fd: int) returns (removed: bool)
      requires Valid()
      modifies this
      ensures Valid() && View() == SpectatorRemoved(old(View()), fd)
      ensures removed <==> fd in old(spectators)
    {
      hide Inv;
      locked := true;
      revision := revision + 1;
      spectators, removed := Erase(spectators, fd);
      locked := false;
    }

    // -------------------------------------------------------------- reading the clocks

    /** The times to show: the running clock is charged for the time since it started. */
    method GetRemainingTimes(now: int) returns (whiteMs: int, blackMs: int)
      requires Valid()
      ensures whiteMs == ShownTime(View(), White, now) && blackMs == ShownTime(View(), Black, now)
    {
      hide Inv, Elapsed;
      whiteMs, blackMs := white.remaining, black.remaining;
      if phase == InProgress {
        var elapsed := Elapsed(GetSeat(board.side).clockStart, now);
        if board.side == White {
          whiteMs := whiteMs - elapsed;
          if whiteMs < 0 {
            whiteMs := 0;
          }
        } else {
          blackMs := blackMs - elapsed;
          if blackMs < 0 {
            blackMs := 0;
          }
        }
      }
    }
  }
}
