/** How the men move, measured on the board, and the first moves of the game. */
module Geometry {
  import opened Types
  import opened Rules
  import opened Agreement
  import opened MoveSets
  import opened MoveGen

  // ---------------------------------------------------------------- distances

  /** The square of the straight distance between the centres of two squares. */
  function Apart(a: Square, b: Square): int {
    Squared(Rank(b) - Rank(a)) + Squared(File(b) - File(a))
  }

  function Squared(x: int): int {
    x * x
  }

  lemma SmallSquares(x: int)
    requires -7 <= x <= 7
    ensures Squared(x) == (match Abs(x)
      case 0 => 0
      case 1 => 1
      case 2 => 4
      case 3 => 9
      case 4 => 16
      case 5 => 25
      case 6 => 36
      case _ => 49)
  {
  }

  /** A knight goes to the nearest squares that are on no line with its own; a king to the eight around it. */
  lemma StepsMeasured(a: Square, b: Square)
    ensures KnightStep(a, b) <==> Apart(a, b) == 5
    ensures KingStep(a, b) <==> 1 <= Apart(a, b) <= 2
    ensures Aligned(a, b) ==> Apart(a, b) != 5
  {
    hide Squared;
    SmallSquares(Rank(b) - Rank(a));
    SmallSquares(File(b) - File(a));
  }

  /** Strictly between two squares of a line: in the same direction, and nearer. */
  predicate Between(x: Square, z: Square, y: Square) {
    z != x && z != y && RankDir(x, z) == RankDir(x, y) && FileDir(x, z) == FileDir(x, y) && Aligned(x, z) && Dist(x, z) < Dist(x, y)
  }

  /** A line is clear exactly when every square on it between its ends is empty. */
  lemma ClearMeansEmptyBetween(b: Placement, x: Square, y: Square)
    requires Aligned(x, y)
    ensures LineClear(b, x, y) <==> forall z: Square :: Between(x, z, y) ==> b[z] == Empty
  {
    hide Dist;
    if LineClear(b, x, y) {
      forall z: Square | Between(x, z, y)
        ensures b[z] == Empty
      {
        OnTheLine(b, x, z);
      }
    } else {
      var k :| 1 <= k < Dist(x, y) && StepPiece(b, x, RankDir(x, y), FileDir(x, y), k) != Empty;
      var z := SquareOnLine(b, x, y, k);
    }
  }

  lemma OnTheLine(b: Placement, x: Square, z: Square)
    requires Aligned(x, z)
    ensures Dist(x, z) >= 1 && StepPiece(b, x, RankDir(x, z), FileDir(x, z), Dist(x, z)) == b[z]
  {
  }

  lemma SquareOnLine(b: Placement, x: Square, y: Square, k: int) returns (z: Square)
    requires Aligned(x, y) && 1 <= k < Dist(x, y)
    ensures Between(x, z, y) && StepPiece(b, x, RankDir(x, y), FileDir(x, y), k) == b[z]
  {
    hide Rank, File, At, Dist;
    var dr, df := RankDir(x, y), FileDir(x, y);
    assert InDirection(x, y, dr, df);
    RayReaches(x, y, dr, df);
    RayLeavesBoard(x, dr, df, k, Dist(x, y));
    z := RaySquare(x, dr, df, k);
    RayGeometry(x, dr, df, k);
  }

  // ---------------------------------------------------------------- castling

  function HomeRank(c: Color): int {
    if c == White then 0 else 7
  }

  function Corner(c: Color, kingside: bool): Square {
    At(HomeRank(c), if kingside then 7 else 0)
  }

  function Crossed(c: Color, kingside: bool): Square {
    At(HomeRank(c), if kingside then 5 else 3)
  }

  function RightOf(r: Rights, c: Color, kingside: bool): bool {
    if c == White then (if kingside then r.wk else r.wq) else (if kingside then r.bk else r.bq)
  }

  /** The right is held, nothing stands between king and rook, and the king is not attacked where it stands or crosses. */
  ghost predicate MayCastle(p: Position, c: Color, kingside: bool) {
    && RightOf(p.rights, c, kingside)
    && (forall z: Square :: Between(At(HomeRank(c), 4), z, Corner(c, kingside)) ==> p.squares[z] == Empty)
    && !AttackedBy(p.squares, At(HomeRank(c), 4), Opposite(c))
    && !AttackedBy(p.squares, Crossed(c, kingside), Opposite(c))
  }

  function CastleTo(c: Color, kingside: bool): Move {
    Move(At(HomeRank(c), 4), At(HomeRank(c), if kingside then 6 else 2), if kingside then KINGSIDE_CASTLE else QUEENSIDE_CASTLE, None)
  }

  lemma AtCoordinates(r: int, f: int)
    requires OnBoard(r, f)
    ensures Rank(At(r, f)) == r && File(At(r, f)) == f
  {
  }

  lemma SquareAtCoordinates(z: Square)
    ensures OnBoard(Rank(z), File(z)) && z == At(Rank(z), File(z))
  {
  }

  lemma BetweenOnRank(r: int, f: int, g: int, z: Square)
    requires OnBoard(r, f) && OnBoard(r, g) && f != g
    ensures Between(At(r, f), z, At(r, g)) <==> Rank(z) == r && (f < File(z) < g || g < File(z) < f)
  {
    hide Rank, File, At;
    AtCoordinates(r, f);
    AtCoordinates(r, g);
    SquareAtCoordinates(z);
  }

  /** What must be empty: f and g for the short side, b, c and d for the long one. */
  lemma WayIsEmpty(b: Placement, c: Color, kingside: bool)
    ensures (forall z: Square :: Between(At(HomeRank(c), 4), z, Corner(c, kingside)) ==> b[z] == Empty) <==>
      if kingside then b[At(HomeRank(c), 5)] == b[At(HomeRank(c), 6)] == Empty
      else b[At(HomeRank(c), 1)] == b[At(HomeRank(c), 2)] == b[At(HomeRank(c), 3)] == Empty
  {
    hide Between, Rank, File, At;
    var r := HomeRank(c);
    forall z: Square
      ensures Between(At(r, 4), z, Corner(c, kingside)) <==>
        if kingside then z == At(r, 5) || z == At(r, 6) else z == At(r, 1) || z == At(r, 2) || z == At(r, 3)
    {
      BetweenOnRank(r, 4, if kingside then 7 else 0, z);
      SquareAtCoordinates(z);
      AtCoordinates(r, 5);
      AtCoordinates(r, 6);
      AtCoordinates(r, 1);
      AtCoordinates(r, 2);
      AtCoordinates(r, 3);
    }
  }

  /** The generator castles exactly when the rules allow it, the square the king lands on aside. */
  lemma CastlingRule(p: Position, m: Move, c: Color)
    ensures CastleMove(p, m, c) <==> exists kingside :: m == CastleTo(c, kingside) && MayCastle(p, c, kingside)
  {
    hide AttackedBy, MayCastle;
    forall kingside
      ensures m == CastleTo(c, kingside) ==> (CastleMove(p, m, c) <==> MayCastle(p, c, kingside))
    {
      if m == CastleTo(c, kingside) {
        CastlingOneSide(p, m, c, kingside);
      }
    }
    if CastleMove(p, m, c) {
      assert m == CastleTo(c, true) || m == CastleTo(c, false);
    }
  }

  lemma CastlingOneSide(p: Position, m: Move, c: Color, kingside: bool)
    requires m == CastleTo(c, kingside)
    ensures CastleMove(p, m, c) <==> MayCastle(p, c, kingside)
  {
    hide AttackedBy, Between;
    WayIsEmpty(p.squares, c, kingside);
  }

  // ---------------------------------------------------------------- the first move of the game

  /** The sixteen pawn moves and the four knight moves. */
  const FIRST_MOVES: seq<Move> := [
    Move(8, 16, PLAIN, None), Move(9, 17, PLAIN, None), Move(10, 18, PLAIN, None), Move(11, 19, PLAIN, None),
    Move(12, 20, PLAIN, None), Move(13, 21, PLAIN, None), Move(14, 22, PLAIN, None), Move(15, 23, PLAIN, None),
    Move(8, 24, DOUBLE_PAWN_PUSH, None), Move(9, 25, DOUBLE_PAWN_PUSH, None), Move(10, 26, DOUBLE_PAWN_PUSH, None),
    Move(11, 27, DOUBLE_PAWN_PUSH, None), Move(12, 28, DOUBLE_PAWN_PUSH, None), Move(13, 29, DOUBLE_PAWN_PUSH, None),
    Move(14, 30, DOUBLE_PAWN_PUSH, None), Move(15, 31, DOUBLE_PAWN_PUSH, None),
    Move(1, 16, PLAIN, None), Move(1, 18, PLAIN, None), Move(6, 21, PLAIN, None), Move(6, 23, PLAIN, None)]

  lemma FirstMovesDistinct()
    ensures NoDuplicates(FIRST_MOVES)
  {
  }

  lemma StartIs(x: Square)
    ensures START.squares[x] == StartPiece(x)
  {
  }

  /** Nobody in the back row but the knights can move: every way out is blocked by an own man. */
  lemma HemmedIn(s: Square, m: Move)
    requires Rank(s) == 0 && s != B1 && s != G1
    ensures !PieceMove(START, s, White, m)
  {
    hide AttackedBy, LineClear, StartPiece;
    StartIs(s);
    HomeKinds(s);
    if m.from == s && StartPiece(s).kind != King && SliderLine(StartPiece(s).kind, s, m.to) && LineClear(START.squares, s, m.to) {
      FirstStep(s, m.to);
    }
    if s == E1 {
      KingHemmedIn(m);
    }
  }

  lemma HomeKinds(s: Square)
    requires Rank(s) == 0
    ensures StartPiece(s).Man? && StartPiece(s).color == White && StartPiece(s).kind != Pawn
    ensures StartPiece(s).kind == Knight <==> s == B1 || s == G1
    ensures StartPiece(s).kind == King <==> s == E1
  {
  }

  /** The first square on the way from the back row is held by a fellow man. */
  lemma FirstStep(s: Square, t: Square)
    requires Rank(s) == 0 && Aligned(s, t) && LineClear(START.squares, s, t)
    ensures Own(START.squares, t, White)
  {
    var dr, df := RankDir(s, t), FileDir(s, t);
    var x := At(Rank(s) + dr, File(s) + df);
    StartIs(x);
    StartIs(t);
    assert StepPiece(START.squares, s, dr, df, 1) == START.squares[x];
  }

  lemma KingHemmedIn(m: Move)
    ensures !PieceMove(START, E1, White, m)
  {
    hide AttackedBy;
    StartIs(E1);
    StartIs(m.to);
    StartIs(F1);
    StartIs(D1);
  }

  lemma PawnsAndKnights(s: Square, m: Move)
    requires Rank(s) == 1 || s == B1 || s == G1
    ensures PieceMove(START, s, White, m) <==> m in FIRST_MOVES && m.from == s
  {
    hide PieceMove, FIRST_MOVES;
    if Rank(s) == 1 {
      PawnFirstMoves(s, m);
      PawnMovesListed(s, m);
    } else {
      KnightFirstMoves(s, m);
      KnightMovesListed(s, m);
    }
  }

  lemma PawnFirstMoves(s: Square, m: Move)
    requires Rank(s) == 1
    ensures PieceMove(START, s, White, m) <==> m == Move(s, s + 8, PLAIN, None) || m == Move(s, s + 16, DOUBLE_PAWN_PUSH, None)
  {
    hide StartPiece;
    StartIs(s);
    StartIs(m.to);
    StartIs(s + 8);
    StartIs(s + 16);
    MiddleIsEmpty(s);
    if m.from == s {
      MiddleIsEmpty(m.to);
    }
  }

  lemma MiddleIsEmpty(s: Square)
    ensures Rank(s) == 1 ==> StartPiece(s) == Man(White, Pawn) && StartPiece(s + 8) == Empty && StartPiece(s + 16) == Empty
    ensures 2 <= Rank(s) < 6 ==> StartPiece(s) == Empty
  {
  }

  lemma PawnMovesListed(s: Square, m: Move)
    requires Rank(s) == 1
    ensures m in FIRST_MOVES && m.from == s <==> m == Move(s, s + 8, PLAIN, None) || m == Move(s, s + 16, DOUBLE_PAWN_PUSH, None)
  {
  }

  lemma KnightReach(t: Square)
    ensures KnightStep(B1, t) <==> t in {11, 16, 18}
    ensures KnightStep(G1, t) <==> t in {12, 21, 23}
  {
  }

  lemma KnightFirstMoves(s: Square, m: Move)
    requires s == B1 || s == G1
    ensures PieceMove(START, s, White, m) <==> Plain(m) && m.from == s && m.to in (if s == B1 then {16, 18} else {21, 23})
  {
    hide StartPiece, KnightStep;
    StartIs(s);
    StartIs(m.to);
    KnightReach(m.to);
    KnightSquares();
  }

  lemma KnightSquares()
    ensures StartPiece(B1) == StartPiece(G1) == Man(White, Knight)
    ensures StartPiece(11) == StartPiece(12) == Man(White, Pawn)
    ensures StartPiece(16) == StartPiece(18) == StartPiece(21) == StartPiece(23) == Empty
  {
  }

  lemma KnightMovesListed(s: Square, m: Move)
    requires s == B1 || s == G1
    ensures m in FIRST_MOVES && m.from == s <==> Plain(m) && m.from == s && m.to in (if s == B1 then {16, 18} else {21, 23})
  {
  }

  /** While Black stands at home nothing of his reaches e1. */
  lemma HomeIsFar(b: Placement, x: Square)
    requires forall y: Square :: Rank(y) >= 6 ==> b[y] == StartPiece(y)
    requires Rank(x) >= 6
    ensures !Attacks(b, x, E1)
  {
    if Rank(x) == 7 && Aligned(x, E1) {
      var y := At(6, File(x) + FileDir(x, E1));
      assert b[y] == Man(Black, Pawn);
      assert StepPiece(b, x, RankDir(x, E1), FileDir(x, E1), 1) == b[y];
    }
  }

  lemma FirstMoveIsSafe(m: Move)
    requires m in FIRST_MOVES
    ensures !InCheck(Apply(START, m).squares, White)
  {
    hide Attacks, FindKing;
    var b := Apply(START, m).squares;
    forall y: Square
      ensures Rank(y) >= 6 ==> b[y] == StartPiece(y)
      ensures b[y].Man? && b[y].color == Black ==> Rank(y) >= 6
      ensures b[y] == Man(White, King) <==> y == E1
    {
      StartIs(y);
      StartIs(m.from);
      FirstMoveSquares(m, y);
    }
    forall x: Square | b[x].Man? && b[x].color == Black
      ensures !Attacks(b, x, E1)
    {
      HomeIsFar(b, x);
    }
    RootKing(b);
  }

  lemma RootKing(b: Placement)
    requires forall y: Square :: b[y] == Man(White, King) <==> y == E1
    ensures FindKing(b, White) == E1
  {
    var k := FindKing(b, White);
    assert b[E1] == Man(White, King);
    if k < 64 {
      var x: Square := k;
      assert x == E1;
    }
  }

  lemma FirstMoveSquares(m: Move, y: Square)
    requires m in FIRST_MOVES
    ensures Apply(START, m).squares[y] ==
      if y == m.from then Empty else if y == m.to then START.squares[m.from] else START.squares[y]
    ensures m.from < 16 && 16 <= m.to < 32 && m.from != E1 && Rank(m.from) <= 1
    ensures START.squares[m.from] == if Rank(m.from) == 1 then Man(White, Pawn) else Man(White, Knight)
  {
    hide StartPiece;
    FirstMoveForm(m);
    StartIs(m.from);
  }

  lemma FirstMoveForm(m: Move)
    requires m in FIRST_MOVES
    ensures m.from < 16 && 16 <= m.to < 32 && m.from != E1 && Rank(m.from) <= 1
    ensures (m.flags == PLAIN || m.flags == DOUBLE_PAWN_PUSH) && m.promo == None
    ensures StartPiece(m.from) == if Rank(m.from) == 1 then Man(White, Pawn) else Man(White, Knight)
  {
  }

  /** White has twenty first moves: every pawn one or two squares ahead, and each knight two. */
  lemma TwentyFirstMoves()
    ensures (forall m: Move :: Legal(START, m) <==> m in FIRST_MOVES) && |LegalSet(START)| == 20
  {
    hide PieceMove, InCheck, Apply, FIRST_MOVES;
    forall m: Move
      ensures Legal(START, m) <==> m in FIRST_MOVES
    {
      FirstMoveIff(m);
    }
    FirstMovesDistinct();
    ListSize(FIRST_MOVES, LegalSet(START));
    TwentyListed();
  }

  lemma TwentyListed()
    ensures |FIRST_MOVES| == 20
  {
  }

  lemma FirstMoveIff(m: Move)
    ensures Legal(START, m) <==> m in FIRST_MOVES
  {
    hide PieceMove, InCheck, Apply;
    forall s: Square
      ensures PieceMove(START, s, White, m) <==> m in FIRST_MOVES && m.from == s
    {
      WhoMoves(s, m);
    }
    assert PseudoLegal(START, m) <==> m in FIRST_MOVES by {
      if m in FIRST_MOVES {
        assert PieceMove(START, m.from, START.side, m);
      }
    }
    if m in FIRST_MOVES {
      FirstMoveIsSafe(m);
    }
  }

  lemma WhoMoves(s: Square, m: Move)
    ensures PieceMove(START, s, White, m) <==> m in FIRST_MOVES && m.from == s
  {
    hide PieceMove;
    if Rank(s) == 1 || s == B1 || s == G1 {
      PawnsAndKnights(s, m);
    } else if Rank(s) == 0 {
      HemmedIn(s, m);
    } else {
      NotWhite(s, m);
    }
  }

  lemma NotWhite(s: Square, m: Move)
    requires Rank(s) > 1
    ensures !PieceMove(START, s, White, m)
  {
    StartIs(s);
  }
}
