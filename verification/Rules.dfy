/**
 The rules of chess over values: attacks, pseudo-legal moves, the effect of a move, check,
 legality, and the invariant of reachable positions.  Nothing here is an algorithm: the
 loops of the source are proved against these definitions in MoveGen.dfy and Board.dfy.
 */
module Rules {
  import opened Types

  /** Everything a FEN record holds; the Zobrist key is kept beside it. */
  datatype Position = Position(
    squares: Placement,
    side: Color,
    rights: Rights,
    ep: Option<Square>,
    halfmove: int,
    fullmove: int)

  // ---------------------------------------------------------------- geometry

  function Sign(x: int): int {
    if x > 0 then 1 else if x < 0 then -1 else 0
  }

  function Abs(x: int): int {
    if x < 0 then -x else x
  }

  /** `k` steps in a direction whose coordinate `d` is -1, 0 or 1. */
  function Off(k: int, d: int): int {
    if d == 0 then 0 else if d > 0 then k else -k
  }

  /** The number of king steps between two squares. */
  function Dist(a: Square, b: Square): int {
    var dr := Abs(Rank(b) - Rank(a));
    var df := Abs(File(b) - File(a));
    if dr >= df then dr else df
  }

  predicate KnightStep(a: Square, b: Square) {
    var dr := Abs(Rank(b) - Rank(a));
    var df := Abs(File(b) - File(a));
    (dr == 1 && df == 2) || (dr == 2 && df == 1)
  }

  predicate KingStep(a: Square, b: Square) {
    Dist(a, b) == 1
  }

  predicate Straight(a: Square, b: Square) {
    a != b && (Rank(a) == Rank(b) || File(a) == File(b))
  }

  predicate Diagonal(a: Square, b: Square) {
    a != b && Abs(Rank(b) - Rank(a)) == Abs(File(b) - File(a))
  }

  /** A pawn of colour `c` on `a` captures towards `b`. */
  predicate PawnHits(c: Color, a: Square, b: Square) {
    Rank(b) == Rank(a) + Forward(c) && Abs(File(b) - File(a)) == 1
  }

  /** The piece `k` steps from `a` in direction (dr, df); off the board there is nothing. */
  function StepPiece(b: Placement, a: Square, dr: int, df: int, k: int): Piece {
    var r, f := Rank(a) + Off(k, dr), File(a) + Off(k, df);
    if OnBoard(r, f) then b[At(r, f)] else Empty
  }

  /** The direction of the line from `x` to `y`. */
  function RankDir(x: Square, y: Square): int {
    Sign(Rank(y) - Rank(x))
  }

  function FileDir(x: Square, y: Square): int {
    Sign(File(y) - File(x))
  }

  /** No piece strictly between two squares on a common line. */
  ghost predicate LineClear(b: Placement, x: Square, y: Square) {
    forall k :: 1 <= k < Dist(x, y) ==> StepPiece(b, x, RankDir(x, y), FileDir(x, y), k) == Empty
  }

  // ---------------------------------------------------------------- attacks

  /** A slider of kind `k` may travel from `x` to `y` when the line is empty. */
  predicate SliderLine(k: Kind, x: Square, y: Square) {
    || (k == Bishop && Diagonal(x, y))
    || (k == Rook && Straight(x, y))
    || (k == Queen && (Straight(x, y) || Diagonal(x, y)))
  }

  /** The man on `x` attacks `y`. */
  ghost predicate Attacks(b: Placement, x: Square, y: Square) {
    b[x].Man? &&
    match b[x].kind
    case Pawn => PawnHits(b[x].color, x, y)
    case Knight => KnightStep(x, y)
    case King => KingStep(x, y)
    case _ => SliderLine(b[x].kind, x, y) && LineClear(b, x, y)
  }

  ghost predicate AttackedBy(b: Placement, y: Square, c: Color) {
    exists x: Square :: b[x].Man? && b[x].color == c && Attacks(b, x, y)
  }

  /** The first square of the scan from `i` that holds the king of `c`, or 64. */
  function FindKing(b: Placement, c: Color, i: nat := 0): (k: int)
    requires i <= 64
    ensures i <= k <= 64
    ensures forall j :: i <= j < k ==> b[j] != Man(c, King)
    ensures k < 64 ==> b[k] == Man(c, King)
    decreases 64 - i
  {
    if i == 64 then 64 else if b[i] == Man(c, King) then i else FindKing(b, c, i + 1)
  }

  ghost predicate InCheck(b: Placement, c: Color) {
    var k := FindKing(b, c);
    k < 64 && AttackedBy(b, k, Opposite(c))
  }

  // ---------------------------------------------------------------- pseudo-legal moves

  function StartRank(c: Color): int {
    if c == White then 1 else 6
  }

  function LastRank(c: Color): int {
    if c == White then 7 else 0
  }

  predicate PromotionKind(o: Option<Kind>) {
    o == Some(Queen) || o == Some(Rook) || o == Some(Bishop) || o == Some(Knight)
  }

  /** A pawn move to `m.to` with flags `base`, promoting exactly on the last rank. */
  predicate PawnForm(m: Move, base: Flags, c: Color) {
    if Rank(m.to) == LastRank(c)
    then m.flags == base.(promotion := true) && PromotionKind(m.promo)
    else m.flags == base && m.promo == None
  }

  predicate Plain(m: Move) {
    m.flags == PLAIN && m.promo == None
  }

  predicate Enemy(b: Placement, s: Square, c: Color) {
    b[s].Man? && b[s].color != c
  }

  predicate Own(b: Placement, s: Square, c: Color) {
    b[s].Man? && b[s].color == c
  }

  predicate PawnPush(p: Position, m: Move, c: Color) {
    && File(m.to) == File(m.from)
    && Rank(m.to) == Rank(m.from) + Forward(c)
    && p.squares[m.to] == Empty
    && PawnForm(m, PLAIN, c)
  }

  predicate PawnDouble(p: Position, m: Move, c: Color) {
    && Rank(m.from) == StartRank(c)
    && m.to == m.from + 16 * Forward(c)
    && p.squares[m.from + 8 * Forward(c)] == Empty
    && p.squares[m.to] == Empty
    && m.flags == DOUBLE_PAWN_PUSH && m.promo == None
  }

  predicate PawnCapture(p: Position, m: Move, c: Color) {
    PawnHits(c, m.from, m.to) && Enemy(p.squares, m.to, c) && PawnForm(m, PLAIN, c)
  }

  predicate PawnEnPassant(p: Position, m: Move, c: Color) {
    && PawnHits(c, m.from, m.to)
    && !Enemy(p.squares, m.to, c)
    && p.ep == Some(m.to)
    && PawnForm(m, EN_PASSANT, c)
  }

  predicate PawnMove(p: Position, m: Move, c: Color) {
    PawnPush(p, m, c) || PawnDouble(p, m, c) || PawnCapture(p, m, c) || PawnEnPassant(p, m, c)
  }

  ghost predicate CastleKingside(p: Position, m: Move, c: Color) {
    if c == White then
      && m == Move(E1, G1, KINGSIDE_CASTLE, None)
      && p.rights.wk && p.squares[F1] == Empty && p.squares[G1] == Empty
      && !AttackedBy(p.squares, E1, Black) && !AttackedBy(p.squares, F1, Black)
    else
      && m == Move(E8, G8, KINGSIDE_CASTLE, None)
      && p.rights.bk && p.squares[F8] == Empty && p.squares[G8] == Empty
      && !AttackedBy(p.squares, E8, White) && !AttackedBy(p.squares, F8, White)
  }

  ghost predicate CastleQueenside(p: Position, m: Move, c: Color) {
    if c == White then
      && m == Move(E1, C1, QUEENSIDE_CASTLE, None)
      && p.rights.wq && p.squares[D1] == Empty && p.squares[C1] == Empty && p.squares[B1] == Empty
      && !AttackedBy(p.squares, E1, Black) && !AttackedBy(p.squares, D1, Black)
    else
      && m == Move(E8, C8, QUEENSIDE_CASTLE, None)
      && p.rights.bq && p.squares[D8] == Empty && p.squares[C8] == Empty && p.squares[B8] == Empty
      && !AttackedBy(p.squares, E8, White) && !AttackedBy(p.squares, D8, White)
  }

  ghost predicate CastleMove(p: Position, m: Move, c: Color) {
    CastleKingside(p, m, c) || CastleQueenside(p, m, c)
  }

  /** What the generator emits for the man of colour `c` standing on `s`. */
  ghost predicate PieceMove(p: Position, s: Square, c: Color, m: Move) {
    && p.squares[s].Man? && p.squares[s].color == c
    && match p.squares[s].kind
       case Pawn => m.from == s && PawnMove(p, m, c)
       case Knight => m.from == s && Plain(m) && KnightStep(s, m.to) && !Own(p.squares, m.to, c)
       case King =>
         || (m.from == s && Plain(m) && KingStep(s, m.to) && !Own(p.squares, m.to, c))
         || CastleMove(p, m, c)
       case k =>
         && m.from == s && Plain(m) && SliderLine(k, s, m.to)
         && LineClear(p.squares, s, m.to) && !Own(p.squares, m.to, c)
  }

  ghost predicate PseudoLegal(p: Position, m: Move) {
    exists s: Square :: PieceMove(p, s, p.side, m)
  }

  // ---------------------------------------------------------------- the effect of a move

  /** The square one rank behind `s`, seen by `c`; `s` itself when there is none. */
  function Behind(s: Square, c: Color): Square {
    if OnBoard(Rank(s) - Forward(c), File(s)) then At(Rank(s) - Forward(c), File(s)) else s
  }

  function MoverColor(p: Position, m: Move): Color {
    if p.squares[m.from].Man? then p.squares[m.from].color else p.side
  }

  function CastleRook(b: Placement, m: Move): Placement {
    var r := Rank(m.from);
    if m.flags.kingside then b[At(r, 5) := b[At(r, 7)]][At(r, 7) := Empty]
    else if m.flags.queenside then b[At(r, 3) := b[At(r, 0)]][At(r, 0) := Empty]
    else b
  }

  /** The captured piece, wherever it stood. */
  function Captured(p: Position, m: Move): Piece {
    if m.flags.enPassant then CastleRook(p.squares, m)[Behind(m.to, MoverColor(p, m))]
    else p.squares[m.to]
  }

  function Arriving(p: Position, m: Move): Piece {
    if m.flags.promotion && m.promo.Some? then Man(MoverColor(p, m), m.promo.value)
    else p.squares[m.from]
  }

  function Relocated(p: Position, m: Move): Placement {
    var b1 := CastleRook(p.squares, m);
    var b2 := if m.flags.enPassant then b1[Behind(m.to, MoverColor(p, m)) := Empty] else b1;
    var b3 := b2[m.to := p.squares[m.from]][m.from := Empty];
    if m.flags.promotion then b3[m.to := Arriving(p, m)] else b3
  }

  function UpdatedRights(r: Rights, from: Square, to: Square): Rights {
    Rights(
      r.wk && from != E1 && from != H1 && to != H1,
      r.wq && from != E1 && from != A1 && to != A1,
      r.bk && from != E8 && from != H8 && to != H8,
      r.bq && from != E8 && from != A8 && to != A8)
  }

  function Apply(p: Position, m: Move): Position {
    Position(
      Relocated(p, m),
      Opposite(p.side),
      UpdatedRights(p.rights, m.from, m.to),
      if m.flags.doublePush then Some(Behind(m.to, MoverColor(p, m))) else None,
      if (p.squares[m.from].Man? && p.squares[m.from].kind == Pawn) || Captured(p, m) != Empty then 0
      else p.halfmove + 1,
      if p.side == Black then p.fullmove + 1 else p.fullmove)
  }

  /** Strictly legal: pseudo-legal, and the mover's king is not left in check. */
  ghost predicate Legal(p: Position, m: Move) {
    PseudoLegal(p, m) && !InCheck(Apply(p, m).squares, p.side)
  }

  // ---------------------------------------------------------------- reachable positions

  ghost predicate SoleKing(b: Placement, c: Color, k: Square) {
    forall j: Square :: b[j] == Man(c, King) <==> j == k
  }

  ghost predicate OneKing(b: Placement, c: Color) {
    exists k: Square :: SoleKing(b, c, k)
  }

  predicate RightsBacked(p: Position) {
    && (p.rights.wk ==> p.squares[E1] == Man(White, King) && p.squares[H1] == Man(White, Rook))
    && (p.rights.wq ==> p.squares[E1] == Man(White, King) && p.squares[A1] == Man(White, Rook))
    && (p.rights.bk ==> p.squares[E8] == Man(Black, King) && p.squares[H8] == Man(Black, Rook))
    && (p.rights.bq ==> p.squares[E8] == Man(Black, King) && p.squares[A8] == Man(Black, Rook))
  }

  /** The target is empty, on the right rank, with the enemy pawn that passed it just beyond. */
  predicate EnPassantBacked(p: Position) {
    p.ep.Some? ==>
      var t := p.ep.value;
      && Rank(t) == (if p.side == White then 5 else 2)
      && p.squares[t] == Empty
      && p.squares[Behind(t, p.side)] == Man(Opposite(p.side), Pawn)
      && p.squares[Behind(t, Opposite(p.side))] == Empty
  }

  ghost predicate NoEndPawns(b: Placement) {
    forall s: Square :: b[s].Man? && b[s].kind == Pawn ==> 0 < Rank(s) < 7
  }

  ghost predicate Inv(p: Position) {
    && OneKing(p.squares, White)
    && OneKing(p.squares, Black)
    && RightsBacked(p)
    && EnPassantBacked(p)
    && NoEndPawns(p.squares)
    && !InCheck(p.squares, Opposite(p.side))
    && 0 <= p.halfmove
    && 1 <= p.fullmove
  }

  function HomeRow(c: Color): seq<Piece> {
    [Man(c, Rook), Man(c, Knight), Man(c, Bishop), Man(c, Queen),
     Man(c, King), Man(c, Bishop), Man(c, Knight), Man(c, Rook)]
  }

  function StartPiece(s: Square): Piece {
    match Rank(s)
    case 0 => HomeRow(White)[File(s)]
    case 1 => Man(White, Pawn)
    case 6 => Man(Black, Pawn)
    case 7 => HomeRow(Black)[File(s)]
    case _ => Empty
  }

  function StartSquares(): Placement {
    seq(64, i requires 0 <= i < 64 => StartPiece(i))
  }

  /** The standard initial array, White to move, all castling rights. */
  const START: Position := Position(StartSquares(), White, Rights(true, true, true, true), None, 0, 1)

  /** The position after playing `ms` from `p`. */
  function Replay(p: Position, ms: seq<Move>): Position {
    if ms == [] then p else Apply(Replay(p, ms[..|ms| - 1]), ms[|ms| - 1])
  }

  /** Every move of `ms` is legal where it is played. */
  ghost predicate LegalLine(p: Position, ms: seq<Move>) {
    ms == [] ||
    (LegalLine(p, ms[..|ms| - 1]) && Legal(Replay(p, ms[..|ms| - 1]), ms[|ms| - 1]))
  }
}
