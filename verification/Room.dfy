/**
 A live game as a value, and what each operation of the room does to it in one critical
 section.  Clock readings are nanoseconds and come in as arguments; the methods of
 GameRoom.dfy are proved against these functions, and RoomRuns.dfy proves what every run keeps.
 */
module Room {
  import opened Types
  import opened Rules
  import opened Reversal
  import opened Invariant
  import opened MoveGen
  import opened San
  import opened Uci

  datatype Phase = Waiting | InProgress | Finished

  datatype Result = WhiteWins | BlackWins | Drawn | Undecided

  datatype Seat = Seat(
    fd: int,
    generation: nat,
    player: int,
    dbId: int,
    remaining: int,
    connected: bool,
    checkedIn: bool,
    disconnectedAt: int,
    clockStart: int)

  datatype Record = Record(move: Move, san: string, think: int)

  datatype Offer = Offer(from: Color, at: int)

  /** What a listener is told about a finished game. */
  datatype Snapshot = Snapshot(
    status: GameStatus,
    result: Result,
    white: Seat,
    black: Seat,
    history: seq<Record>,
    revision: nat)

  /** A callback made after the lock is released. */
  datatype Call = Committed | Completed(listener: int, snapshot: Snapshot)

  /** Fixed when the room is made. */
  datatype Config = Config(base: int, increment: int, isAi: bool, reserved: bool)

  datatype Game = Game(
    phase: Phase,
    position: Position,
    result: Result,
    status: GameStatus,
    history: seq<Record>)

  /** The callbacks made so far: listeners told of the start, and the calls made on completion. */
  datatype Sent = Sent(starts: seq<int>, calls: seq<Call>)

  datatype State = State(
    config: Config,
    game: Game,
    white: Seat,
    black: Seat,
    reservedOpen: bool,
    drawOffer: Option<Offer>,
    rematchOffer: Option<Offer>,
    spectators: seq<int>,
    listeners: seq<int>,
    revision: nat,
    sent: Sent)

  /** The three readings a move takes: the flag test, the think time, the clock switch. */
  datatype Readings = Readings(flag: int, think: int, stop: int)

  datatype Refusal =
    | NotInProgress | NotAPlayer | NotYourTurn | OutOfTime | IllegalMove | NotAnAiGame
    | AiGame | OpponentGone | AlreadyOffered | AnswerFirst | NoOffer | OwnOffer
    | NotFinished | TournamentGame | NotReserved | GameFinished | NotCheckedIn | Replaced | SeatTaken

  const NO_FD := -1
  const AI_FD := -2
  const EMPTY_SEAT := Seat(NO_FD, 0, 0, 0, 0, false, false, 0, 0)

  // ---------------------------------------------------------------- time

  const NANOS_PER_MILLI := 1_000_000

  /** Whole milliseconds between two readings, truncated toward zero. */
  function Elapsed(start: int, now: int): int {
    if now >= start then (now - start) / NANOS_PER_MILLI else -((start - now) / NANOS_PER_MILLI)
  }

  // ---------------------------------------------------------------- seats

  function SeatOf(r: State, c: Color): Seat {
    if c == White then r.white else r.black
  }

  function WithSeat(r: State, c: Color, s: Seat): State {
    if c == White then r.(white := s) else r.(black := s)
  }

  /** White's seat is looked at first. */
  function ColorOf(r: State, fd: int): Option<Color> {
    if r.white.fd == fd then Some(White) else if r.black.fd == fd then Some(Black) else None
  }

  function ColorOfDb(r: State, dbId: int): Option<Color> {
    if r.white.dbId == dbId then Some(White) else if r.black.dbId == dbId then Some(Black) else None
  }

  function Bump(r: State): State {
    r.(revision := r.revision + 1)
  }

  // ---------------------------------------------------------------- new rooms

  function NewRoom(base: int, increment: int, player: int, fd: int, dbId: int): State {
    State(Config(base, increment, false, false), Game(Waiting, START, Undecided, Ongoing, []),
      Seat(fd, 0, player, dbId, base, true, false, 0, 0), EMPTY_SEAT,
      false, None, None, [], [], 0, Sent([], []))
  }

  function NewAiRoom(base: int, increment: int, player: int, fd: int, dbId: int, now: int): State {
    State(Config(base, increment, true, false), Game(InProgress, START, Undecided, Ongoing, []),
      Seat(fd, 0, player, dbId, base, true, false, 0, now),
      Seat(AI_FD, 0, 0, 0, base, true, false, 0, 0),
      false, None, None, [], [], 0, Sent([], []))
  }

  function NewReservedRoom(base: int, increment: int, whiteDb: int, blackDb: int): State {
    State(Config(base, increment, false, true), Game(Waiting, START, Undecided, Ongoing, []),
      EMPTY_SEAT.(dbId := whiteDb, remaining := base), EMPTY_SEAT.(dbId := blackDb, remaining := base),
      false, None, None, [], [], 0, Sent([], []))
  }

  // ---------------------------------------------------------------- starting and finishing

  function StartTold(r: State): State {
    r.(sent := r.sent.(starts := r.sent.starts + r.listeners))
  }

  function Running(r: State, now: int): State {
    r.(game := r.game.(phase := InProgress), white := r.white.(clockStart := now))
  }

  /** The game goes live, White's clock runs, and every listener is told. */
  function Start(r: State, now: int): State {
    StartTold(Running(r, now))
  }

  function WinFor(c: Color): Result {
    if c == White then WhiteWins else BlackWins
  }

  function SnapshotOf(r: State): Snapshot {
    Snapshot(r.game.status, r.game.result, r.white, r.black, r.game.history, r.revision)
  }

  function Announce(listeners: seq<int>, s: Snapshot): seq<Call> {
    seq(|listeners|, i requires 0 <= i < |listeners| => Completed(listeners[i], s))
  }

  function Calls(callback: bool, listeners: seq<int>, s: Snapshot): seq<Call> {
    (if callback then [Committed] else []) + Announce(listeners, s)
  }

  function Delivered(r: State, calls: seq<Call>): State {
    r.(sent := r.sent.(calls := r.sent.calls + calls))
  }

  function Ended(r: State, status: GameStatus, result: Result): State {
    r.(game := r.game.(phase := Finished, status := status, result := result))
  }

  /** The terminal transition, followed by one completion call per registered listener. */
  function Finish(r: State, status: GameStatus, result: Result, callback: bool := false): State {
    var done := Ended(r, status, result);
    Delivered(done, Calls(callback, done.listeners, SnapshotOf(done)))
  }

  predicate MayJoin(r: State) {
    r.game.phase == Waiting && !r.config.reserved && r.black.fd == NO_FD
  }

  function JoinerSeated(r: State, player: int, fd: int, dbId: int): State {
    Bump(r).(black := r.black.(fd := fd, player := player, dbId := dbId, remaining := r.config.base, connected := true))
  }

  function Joined(r: State, player: int, fd: int, dbId: int, now: int): State {
    if !MayJoin(r) then r
    else Start(JoinerSeated(r, player, fd, dbId), now)
  }

  predicate BothConnected(r: State) {
    r.white.connected && r.black.connected
  }

  function BindRefusal(r: State, dbId: int, fd: int, replace: bool, generation: nat): Option<Refusal> {
    if !r.config.reserved then Some(NotReserved)
    else if r.game.phase == Finished then Some(GameFinished)
    else match ColorOfDb(r, dbId)
      case None => Some(NotAPlayer)
      case Some(c) =>
        var seat := SeatOf(r, c);
        if !seat.checkedIn then Some(NotCheckedIn)
        else if generation < seat.generation then Some(Replaced)
        else if seat.connected && seat.fd != fd && !replace then Some(SeatTaken)
        else None
  }

  /** The seat of `c` is taken over; the room counts a revision only when the connection changes. */
  function Seated(r: State, c: Color, player: int, fd: int, generation: nat): State {
    var seat := SeatOf(r, c);
    if seat.connected && seat.fd == fd then WithSeat(r, c, seat.(generation := generation))
    else WithSeat(Bump(r), c,
      seat.(player := player, fd := fd, connected := true, disconnectedAt := 0, generation := generation))
  }

  /** An open room waiting with both seats connected starts; any other is left alone. */
  predicate Ready(r: State) {
    r.reservedOpen && r.game.phase == Waiting && BothConnected(r)
  }

  function Bound(r: State, dbId: int, player: int, fd: int, replace: bool, generation: nat, now: int): State {
    if BindRefusal(r, dbId, fd, replace, generation).Some? || ColorOfDb(r, dbId) == None then r
    else
      var s := Seated(r, ColorOfDb(r, dbId).value, player, fd, generation);
      if Ready(s) then Start(s, now) else s
  }

  function Allowed(r: State, dbId: int): State {
    if !r.config.reserved || r.game.phase == Finished then r
    else match ColorOfDb(r, dbId)
      case None => r
      case Some(c) => WithSeat(r, c, SeatOf(r, c).(checkedIn := true))
  }

  predicate MayOpen(r: State) {
    r.config.reserved && r.game.phase != Finished
  }

  function Opened(r: State, now: int): State {
    if !MayOpen(r) then r
    else
      var o := r.(reservedOpen := true);
      if Ready(o) then Start(Bump(o), now) else o
  }

  // ---------------------------------------------------------------- moves

  /** A move with the asked squares, promoting as asked, to a queen when nothing is asked. */
  predicate Asked(m: Move, from: Square, to: Square, promo: Option<Kind>) {
    && m.from == from && m.to == to
    && (m.flags.promotion ==> m.promo == Some(if promo == None then Queen else promo.value))
  }

  ghost function Chosen(p: Position, from: Square, to: Square, promo: Option<Kind>): Option<Move> {
    if exists m: Move :: Legal(p, m) && Asked(m, from, to, promo) then
      var m: Move :| Legal(p, m) && Asked(m, from, to, promo);
      Some(m)
    else None
  }

  lemma ChosenIsLegal(p: Position, from: Square, to: Square, promo: Option<Kind>)
    ensures var m := Chosen(p, from, to, promo); m.Some? ==> Legal(p, m.value) && Asked(m.value, from, to, promo)
  {
  }

  /** A request names at most one legal move. */
  lemma RequestNamesOneMove(p: Position, m: Move, from: Square, to: Square, promo: Option<Kind>)
    requires Inv(p) && Legal(p, m) && Asked(m, from, to, promo)
    ensures Chosen(p, from, to, promo) == Some(m)
  {
    hide Legal, Shape;
    var o := Chosen(p, from, to, promo).value;
    LegalMoveIsPlayable(p, m);
    LegalMoveIsPlayable(p, o);
    PromotesOnLastRank(p, m);
    PromotesOnLastRank(p, o);
    SameTargetSameMove(p, m, o);
  }

  /** Whether the side to move has used up its time. */
  predicate Flagged(r: State, now: int) {
    var active := SeatOf(r, r.game.position.side);
    r.game.phase == InProgress && active.remaining - Elapsed(active.clockStart, now) <= 0
  }

  function ShownTime(r: State, c: Color, now: int): int {
    var s := SeatOf(r, c);
    if r.game.phase == InProgress && r.game.position.side == c then
      var left := s.remaining - Elapsed(s.clockStart, now);
      if left < 0 then 0 else left
    else s.remaining
  }

  /** The mover pays its time and gets the increment; the opponent's clock starts. */
  function SwitchClock(r: State, mover: Color, now: int): State {
    var s := SeatOf(r, mover);
    var left := s.remaining - Elapsed(s.clockStart, now) + r.config.increment;
    var paid := WithSeat(r, mover, s.(remaining := if left < 0 then 0 else left));
    WithSeat(paid, Opposite(mover), SeatOf(paid, Opposite(mover)).(clockStart := now))
  }

  /** The result a board status gives; `side` is the side to move. */
  function BoardResult(status: GameStatus, side: Color): Result {
    match status
    case Checkmate => WinFor(Opposite(side))
    case Stalemate => Drawn
    case DrawFiftyMove => Drawn
    case DrawInsufficientMaterial => Drawn
    case DrawThreefoldRepetition => Drawn
    case _ => Undecided
  }

  /** The move is made and recorded with its text and the mover's think time. */
  ghost function Recorded(r: State, m: Move, t: Readings): State {
    var think := Elapsed(SeatOf(r, r.game.position.side).clockStart, t.think);
    var record := Record(m, SanText(r.game.position, m), think);
    r.(game := r.game.(position := Apply(r.game.position, m), history := r.game.history + [record]))
  }

  ghost function Advanced(r: State, m: Move, t: Readings): State {
    SwitchClock(Recorded(r, m, t), r.game.position.side, t.stop)
  }

  ghost function Played(r: State, m: Move, t: Readings): State {
    var next := Advanced(r, m, t);
    var status := StatusOf(next.game.position);
    if status == Ongoing then next else Finish(next, status, BoardResult(status, next.game.position.side))
  }

  /** A move by the offeree declines the offer. */
  predicate Declines(r: State, mover: Color) {
    r.drawOffer.Some? && r.drawOffer.value.from != mover
  }

  function Declined(r: State, mover: Color): State {
    if Declines(r, mover) then r.(drawOffer := None) else r
  }

  /** The checks before the move itself is looked for. */
  function EarlyRefusal(r: State, fd: int, now: int): Option<Refusal> {
    if r.game.phase != InProgress then Some(NotInProgress)
    else if ColorOf(r, fd) == None then Some(NotAPlayer)
    else if ColorOf(r, fd).value != r.game.position.side then Some(NotYourTurn)
    else if Flagged(r, now) then Some(OutOfTime)
    else None
  }

  ghost function MoveRefusal(r: State, fd: int, from: Square, to: Square, promo: Option<Kind>, t: Readings): Option<Refusal> {
    if EarlyRefusal(r, fd, t.flag).Some? then EarlyRefusal(r, fd, t.flag)
    else if Chosen(r.game.position, from, to, promo) == None then Some(IllegalMove)
    else None
  }

  /** Every call counts as a revision; a call after the flag fell ends the game instead of moving. */
  ghost function Submitted(r: State, fd: int, from: Square, to: Square, promo: Option<Kind>, t: Readings): State {
    var b := Bump(r);
    match MoveRefusal(b, fd, from, to, promo, t)
    case Some(OutOfTime) => Finish(b, Timeout, WinFor(Opposite(b.game.position.side)))
    case Some(_) => b
    case None => Played(Declined(b, b.game.position.side), Chosen(b.game.position, from, to, promo).value, t)
  }

  function EarlyAiRefusal(r: State, now: int): Option<Refusal> {
    if r.game.phase != InProgress then Some(NotInProgress)
    else if !r.config.isAi then Some(NotAnAiGame)
    else if r.game.position.side != Black then Some(NotYourTurn)
    else if Flagged(r, now) then Some(OutOfTime)
    else None
  }

  ghost function AiMoveRefusal(r: State, from: Square, to: Square, promo: Option<Kind>, t: Readings): Option<Refusal> {
    if EarlyAiRefusal(r, t.flag).Some? then EarlyAiRefusal(r, t.flag)
    else if Chosen(r.game.position, from, to, promo) == None then Some(IllegalMove)
    else None
  }

  ghost function AiSubmitted(r: State, from: Square, to: Square, promo: Option<Kind>, t: Readings): State {
    var b := Bump(r);
    match AiMoveRefusal(b, from, to, promo, t)
    case Some(OutOfTime) => Finish(WithSeat(b, Black, b.black.(remaining := 0)), Timeout, WhiteWins)
    case Some(_) => b
    case None => Played(b, Chosen(b.game.position, from, to, promo).value, t)
  }

  // ---------------------------------------------------------------- resignation and offers

  predicate MayResign(r: State, fd: int) {
    r.game.phase == InProgress && ColorOf(r, fd).Some?
  }

  function Resigned(r: State, fd: int, callback: bool): State {
    var b := Bump(r);
    if !MayResign(b, fd) then b
    else Finish(b, Resignation, WinFor(Opposite(ColorOf(b, fd).value)), callback)
  }

  function OfferClash(offer: Option<Offer>, who: Color): Option<Refusal> {
    if offer == None then None else if offer.value.from == who then Some(AlreadyOffered) else Some(AnswerFirst)
  }

  function DrawRefusal(r: State, fd: int): Option<Refusal> {
    if r.game.phase != InProgress then Some(NotInProgress)
    else if r.config.isAi then Some(AiGame)
    else match ColorOf(r, fd)
      case None => Some(NotAPlayer)
      case Some(c) =>
        if !SeatOf(r, Opposite(c)).connected then Some(OpponentGone) else OfferClash(r.drawOffer, c)
  }

  function DrawOffered(r: State, fd: int, now: int): State {
    if DrawRefusal(r, fd).Some? || ColorOf(r, fd) == None then r
    else Bump(r).(drawOffer := Some(Offer(ColorOf(r, fd).value, now)))
  }

  /** Who may answer an offer: a seated player other than the one who made it. */
  function AnswerRefusal(r: State, offer: Option<Offer>, fd: int): Option<Refusal> {
    if offer == None then Some(NoOffer)
    else match ColorOf(r, fd)
      case None => Some(NotAPlayer)
      case Some(c) => if c == offer.value.from then Some(OwnOffer) else None
  }

  function DrawAnswerRefusal(r: State, fd: int): Option<Refusal> {
    if r.game.phase != InProgress then Some(NoOffer) else AnswerRefusal(r, r.drawOffer, fd)
  }

  function DrawAnswered(r: State, fd: int, accept: bool): State {
    if DrawAnswerRefusal(r, fd).Some? then r
    else
      var cleared := Bump(r).(drawOffer := None);
      if accept then Finish(cleared, DrawAgreement, Drawn) else cleared
  }

  /** An offer is due when its lifetime, in milliseconds, has passed. */
  predicate OfferDue(offer: Option<Offer>, ttl: int, now: int) {
    offer.Some? && now - offer.value.at >= ttl * NANOS_PER_MILLI
  }

  function DrawExpired(r: State, ttl: int, now: int): State {
    if r.game.phase == InProgress && OfferDue(r.drawOffer, ttl, now) then Bump(r).(drawOffer := None) else r
  }

  function RematchRefusal(r: State, fd: int): Option<Refusal> {
    if r.game.phase != Finished then Some(NotFinished)
    else if r.config.isAi then Some(AiGame)
    else if r.config.reserved then Some(TournamentGame)
    else match ColorOf(r, fd)
      case None => Some(NotAPlayer)
      case Some(c) =>
        var opponent := SeatOf(r, Opposite(c));
        if !opponent.connected || opponent.fd < 0 then Some(OpponentGone) else OfferClash(r.rematchOffer, c)
  }

  function RematchOffered(r: State, fd: int, now: int): State {
    if RematchRefusal(r, fd).Some? || ColorOf(r, fd) == None then r
    else Bump(r).(rematchOffer := Some(Offer(ColorOf(r, fd).value, now)))
  }

  function RematchAnswerRefusal(r: State, fd: int): Option<Refusal> {
    if r.game.phase != Finished then Some(NoOffer) else AnswerRefusal(r, r.rematchOffer, fd)
  }

  function RematchAnswered(r: State, fd: int): State {
    if RematchAnswerRefusal(r, fd).Some? then r else Bump(r).(rematchOffer := None)
  }

  function RematchExpired(r: State, ttl: int, now: int): State {
    if r.game.phase == Finished && OfferDue(r.rematchOffer, ttl, now) then Bump(r).(rematchOffer := None) else r
  }

  // ---------------------------------------------------------------- clocks and connections

  function TimeExpired(r: State, now: int): State {
    if !Flagged(r, now) then r
    else
      var side := r.game.position.side;
      var stopped := WithSeat(Bump(r), side, SeatOf(r, side).(remaining := 0));
      Finish(stopped, Timeout, WinFor(Opposite(side)))
  }

  function Disconnected(r: State, fd: int, now: int): State {
    match ColorOf(r, fd)
    case None => r
    case Some(c) =>
      if !SeatOf(r, c).connected then r
      else
        var left := WithSeat(Bump(r), c, SeatOf(r, c).(connected := false, disconnectedAt := now, fd := NO_FD));
        if r.game.phase == Waiting && !r.config.reserved then Finish(left, Resignation, Undecided) else left
  }

  predicate MayReconnect(r: State, dbId: int, fd: int, generation: nat) {
    if r.config.reserved then BindRefusal(r, dbId, fd, true, generation) == None
    else dbId > 0 && ColorOfDb(r, dbId).Some? && generation >= SeatOf(r, ColorOfDb(r, dbId).value).generation
  }

  /** An authenticated player takes its seat back; a tournament seat goes through binding. */
  function Reconnected(r: State, dbId: int, fd: int, generation: nat, now: int): State {
    if r.config.reserved then Bound(r, dbId, dbId, fd, true, generation, now)
    else if !MayReconnect(r, dbId, fd, generation) then r
    else
      var c := ColorOfDb(r, dbId).value;
      Seated(r, c, SeatOf(r, c).player, fd, generation)
  }

  predicate GraceOver(s: Seat, grace: int, now: int) {
    !s.connected && now - s.disconnectedAt >= grace * NANOS_PER_MILLI
  }

  /** The seat that left first forfeits; leaving in the same instant is a draw. */
  function AbandonResult(r: State, grace: int, now: int): Result {
    var w, b := GraceOver(r.white, grace, now), GraceOver(r.black, grace, now);
    if w && b && r.white.disconnectedAt == r.black.disconnectedAt then Drawn
    else if w && (!b || r.white.disconnectedAt < r.black.disconnectedAt) then BlackWins
    else WhiteWins
  }

  function Abandoned(r: State, grace: int, now: int): State {
    if r.game.phase == InProgress && (GraceOver(r.white, grace, now) || GraceOver(r.black, grace, now))
    then Finish(Bump(r), Abandonment, AbandonResult(r, grace, now))
    else r
  }

  // ---------------------------------------------------------------- listeners and spectators

  /** `s` without its first `x`. */
  function Removed(s: seq<int>, x: int): seq<int> {
    if s == [] then [] else if s[0] == x then s[1..] else [s[0]] + Removed(s[1..], x)
  }

  function ListenerAdded(r: State, l: int): State {
    r.(listeners := r.listeners + [l])
  }

  function ListenerRemoved(r: State, l: int): State {
    r.(listeners := Removed(r.listeners, l))
  }

  predicate MayWatch(r: State, fd: int) {
    r.game.phase == InProgress && fd != r.white.fd && fd != r.black.fd
  }

  function SpectatorAdded(r: State, fd: int): State {
    var b := Bump(r);
    if !MayWatch(b, fd) || fd in b.spectators then b else b.(spectators := b.spectators + [fd])
  }

  function SpectatorRemoved(r: State, fd: int): State {
    Bump(r).(spectators := Removed(r.spectators, fd))
  }
}
