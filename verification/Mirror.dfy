/** Turning the board round: the rules treat the two colours alike. */
module Mirror {
  import opened Types
  import opened Rules
  import opened Agreement
  import opened MoveSets

  function FlipPiece(pc: Piece): Piece {
    if pc.Man? then Man(Opposite(pc.color), pc.kind) else Empty
  }

  function FlipBoard(b: Placement): (r: Placement)
    ensures forall s: Square :: r[s] == FlipPiece(b[Flip(s)])
  {
    seq(64, s requires 0 <= s < 64 => FlipPiece(b[Flip(s)]))
  }

  function FlipRights(r: Rights): Rights {
    Rights(r.bk, r.bq, r.wk, r.wq)
  }

  function FlipTarget(ep: Option<Square>): Option<Square> {
    if ep.Some? then Some(Flip(ep.value)) else None
  }

  /** The same position with the colours exchanged and the board turned top to bottom. */
  function FlipPosition(p: Position): Position {
    Position(FlipBoard(p.squares), Opposite(p.side), FlipRights(p.rights), FlipTarget(p.ep), p.halfmove, p.fullmove)
  }

  function FlipMove(m: Move): Move {
    Move(Flip(m.from), Flip(m.to), m.flags, m.promo)
  }

  lemma FlipMoveTwice(m: Move)
    ensures FlipMove(FlipMove(m)) == m
  {
    FlipTwice(m.from);
    FlipTwice(m.to);
  }

  // ---------------------------------------------------------------- geometry

  lemma FlipAt(r: int, f: int)
    requires OnBoard(r, f)
    ensures Flip(At(r, f)) == At(7 - r, f)
  {
  }

  lemma FlipCoordinates(x: Square)
    ensures Rank(Flip(x)) == 7 - Rank(x) && File(Flip(x)) == File(x)
  {
  }

  lemma StepFlipped(b: Placement, x: Square, dr: int, df: int, k: int)
    ensures StepPiece(FlipBoard(b), Flip(x), -dr, df, k) == FlipPiece(StepPiece(b, x, dr, df, k))
  {
    hide Flip, At, Rank, File;
    FlipCoordinates(x);
    var r, f := Rank(x) + Off(k, dr), File(x) + Off(k, df);
    if OnBoard(r, f) {
      FlipAt(r, f);
      PieceFlipped(b, At(r, f));
    }
  }

  lemma GeometryFlipped(x: Square, y: Square)
    ensures Dist(Flip(x), Flip(y)) == Dist(x, y)
    ensures RankDir(Flip(x), Flip(y)) == -RankDir(x, y) && FileDir(Flip(x), Flip(y)) == FileDir(x, y)
    ensures KnightStep(Flip(x), Flip(y)) <==> KnightStep(x, y)
    ensures KingStep(Flip(x), Flip(y)) <==> KingStep(x, y)
    ensures Straight(Flip(x), Flip(y)) <==> Straight(x, y)
    ensures Diagonal(Flip(x), Flip(y)) <==> Diagonal(x, y)
  {
    FlipTwice(x);
    FlipTwice(y);
  }

  lemma PawnHitsFlipped(c: Color, x: Square, y: Square)
    ensures PawnHits(Opposite(c), Flip(x), Flip(y)) <==> PawnHits(c, x, y)
  {
    FlipTwice(x);
    FlipTwice(y);
  }

  lemma PieceFlipped(b: Placement, s: Square)
    ensures FlipBoard(b)[Flip(s)] == FlipPiece(b[s])
  {
    FlipTwice(s);
  }

  lemma FlipBoardTwice(b: Placement)
    ensures FlipBoard(FlipBoard(b)) == b
  {
    var r := FlipBoard(FlipBoard(b));
    forall s: Square
      ensures r[s] == b[s]
    {
      FlipTwice(s);
    }
    assert r == b;
  }

  lemma ClearStaysClear(b: Placement, x: Square, y: Square)
    requires LineClear(b, x, y)
    ensures LineClear(FlipBoard(b), Flip(x), Flip(y))
  {
    hide StepPiece, FlipBoard, Flip;
    GeometryFlipped(x, y);
    var dr, df := RankDir(x, y), FileDir(x, y);
    forall k | 1 <= k < Dist(Flip(x), Flip(y))
      ensures StepPiece(FlipBoard(b), Flip(x), RankDir(Flip(x), Flip(y)), FileDir(Flip(x), Flip(y)), k) == Empty
    {
      StepFlipped(b, x, dr, df, k);
      assert StepPiece(b, x, dr, df, k) == Empty;
    }
  }

  lemma LineClearFlipped(b: Placement, x: Square, y: Square)
    ensures LineClear(FlipBoard(b), Flip(x), Flip(y)) <==> LineClear(b, x, y)
  {
    hide LineClear, FlipBoard, Flip;
    if LineClear(b, x, y) {
      ClearStaysClear(b, x, y);
    }
    if LineClear(FlipBoard(b), Flip(x), Flip(y)) {
      ClearStaysClear(FlipBoard(b), Flip(x), Flip(y));
      FlipBoardTwice(b);
      FlipTwice(x);
      FlipTwice(y);
    }
  }

  // ---------------------------------------------------------------- attacks

  lemma AttacksFlipped(b: Placement, x: Square, y: Square)
    ensures Attacks(FlipBoard(b), Flip(x), Flip(y)) <==> Attacks(b, x, y)
  {
    FlipTwice(x);
    GeometryFlipped(x, y);
    LineClearFlipped(b, x, y);
    if b[x].Man? {
      PawnHitsFlipped(b[x].color, x, y);
    }
  }

  /** Attack detection commutes with turning the board. */
  lemma AttackedByFlipped(b: Placement, y: Square, c: Color)
    ensures AttackedBy(FlipBoard(b), Flip(y), Opposite(c)) <==> AttackedBy(b, y, c)
  {
    hide Attacks;
    if AttackedBy(b, y, c) {
      var x: Square :| b[x].Man? && b[x].color == c && Attacks(b, x, y);
      AttacksFlipped(b, x, y);
      FlipTwice(x);
      assert FlipBoard(b)[Flip(x)] == FlipPiece(b[x]);
    }
    if AttackedBy(FlipBoard(b), Flip(y), Opposite(c)) {
      var z: Square :| FlipBoard(b)[z].Man? && FlipBoard(b)[z].color == Opposite(c) && Attacks(FlipBoard(b), z, Flip(y));
      FlipTwice(z);
      AttacksFlipped(b, Flip(z), y);
      assert b[Flip(z)].color == c;
    }
  }

  // ---------------------------------------------------------------- moves

  lemma PawnFormFlipped(m: Move, base: Flags, c: Color)
    ensures PawnForm(FlipMove(m), base, Opposite(c)) <==> PawnForm(m, base, c)
  {
    FlipTwice(m.to);
  }

  lemma PawnMoveFlipped(p: Position, m: Move, c: Color)
    ensures PawnMove(FlipPosition(p), FlipMove(m), Opposite(c)) <==> PawnMove(p, m, c)
  {
    var q, n := FlipPosition(p), FlipMove(m);
    FlipTwice(m.from);
    FlipTwice(m.to);
    PawnHitsFlipped(c, m.from, m.to);
    PawnFormFlipped(m, PLAIN, c);
    PawnFormFlipped(m, EN_PASSANT, c);
    assert q.squares[n.to] == FlipPiece(p.squares[m.to]);
    assert PawnPush(q, n, Opposite(c)) <==> PawnPush(p, m, c);
    PawnDoubleFlipped(p, m, c);
    assert PawnCapture(q, n, Opposite(c)) <==> PawnCapture(p, m, c);
    assert q.ep == Some(n.to) <==> p.ep == Some(m.to) by {
      if p.ep.Some? {
        FlipTwice(p.ep.value);
      }
    }
    assert PawnEnPassant(q, n, Opposite(c)) <==> PawnEnPassant(p, m, c);
  }

  lemma FlipShifted(x: Square, d: int)
    requires 0 <= x + 8 * d < 64
    ensures Flip(x + 8 * d) == Flip(x) - 8 * d
  {
  }

  lemma PawnDoubleFlipped(p: Position, m: Move, c: Color)
    ensures PawnDouble(FlipPosition(p), FlipMove(m), Opposite(c)) <==> PawnDouble(p, m, c)
  {
    hide FlipBoard, Flip;
    FlipTwice(m.from);
    FlipTwice(m.to);
    PieceFlipped(p.squares, m.to);
    var f := Forward(c);
    if Rank(m.from) == StartRank(c) {
      FlipShifted(m.from, f);
      PieceFlipped(p.squares, m.from + 8 * f);
      DoubleStepFlipped(m.from, m.to, f);
    }
  }

  lemma DoubleStepFlipped(s: Square, t: Square, f: int)
    requires (f == 1 && Rank(s) == 1) || (f == -1 && Rank(s) == 6)
    ensures Flip(t) == Flip(s) - 16 * f <==> t == s + 16 * f
  {
  }

  lemma HomeSquareFlipped(f: Square)
    requires f < 8
    ensures Flip(f) == 56 + f && Flip(56 + f) == f
  {
  }

  lemma HomeSquaresFlipped()
    ensures Flip(E1) == E8 && Flip(F1) == F8 && Flip(G1) == G8 && Flip(D1) == D8 && Flip(C1) == C8 && Flip(B1) == B8
    ensures Flip(E8) == E1 && Flip(F8) == F1 && Flip(G8) == G1 && Flip(D8) == D1 && Flip(C8) == C1 && Flip(B8) == B1
  {
    hide Flip;
    HomeSquareFlipped(E1);
    HomeSquareFlipped(F1);
    HomeSquareFlipped(G1);
    HomeSquareFlipped(D1);
    HomeSquareFlipped(C1);
    HomeSquareFlipped(B1);
  }

  lemma CastleMoveFlipped(p: Position, m: Move, c: Color)
    ensures CastleMove(FlipPosition(p), FlipMove(m), Opposite(c)) <==> CastleMove(p, m, c)
  {
    hide AttackedBy, Flip, FlipBoard;
    HomeSquaresFlipped();
    var b := p.squares;
    AttackedByFlipped(b, E1, Black);
    AttackedByFlipped(b, F1, Black);
    AttackedByFlipped(b, D1, Black);
    AttackedByFlipped(b, E8, White);
    AttackedByFlipped(b, F8, White);
    AttackedByFlipped(b, D8, White);
    FlipMoveTwice(m);
    var q := FlipBoard(b);
    assert q[F8] == FlipPiece(b[F1]) && q[G8] == FlipPiece(b[G1]) && q[D8] == FlipPiece(b[D1])
        && q[C8] == FlipPiece(b[C1]) && q[B8] == FlipPiece(b[B1]);
    assert q[F1] == FlipPiece(b[F8]) && q[G1] == FlipPiece(b[G8]) && q[D1] == FlipPiece(b[D8])
        && q[C1] == FlipPiece(b[C8]) && q[B1] == FlipPiece(b[B8]);
    FlipTwice(m.from);
    FlipTwice(m.to);
  }

  lemma StepMoveFlipped(p: Position, s: Square, c: Color, m: Move)
    ensures Own(FlipBoard(p.squares), Flip(m.to), Opposite(c)) <==> Own(p.squares, m.to, c)
    ensures Flip(m.from) == Flip(s) <==> m.from == s
  {
    hide Flip, FlipBoard;
    PieceFlipped(p.squares, m.to);
    FlipTwice(s);
    FlipTwice(m.from);
  }

  lemma SliderMoveFlipped(p: Position, k: Kind, s: Square, t: Square)
    ensures SliderLine(k, Flip(s), Flip(t)) && LineClear(FlipBoard(p.squares), Flip(s), Flip(t))
      <==> SliderLine(k, s, t) && LineClear(p.squares, s, t)
  {
    hide LineClear, Straight, Diagonal, Flip, FlipBoard;
    GeometryFlipped(s, t);
    LineClearFlipped(p.squares, s, t);
  }

  /** Generation commutes with turning the board, man by man. */
  lemma PieceMoveFlipped(p: Position, s: Square, c: Color, m: Move)
    ensures PieceMove(FlipPosition(p), Flip(s), Opposite(c), FlipMove(m)) <==> PieceMove(p, s, c, m)
  {
    hide LineClear, SliderLine, CastleMove, PawnMove, KnightStep, KingStep, Flip, FlipBoard, Own;
    PieceFlipped(p.squares, s);
    StepMoveFlipped(p, s, c, m);
    match p.squares[s]
    case Empty =>
    case Man(_, Pawn) => PawnMoveFlipped(p, m, c);
    case Man(_, Knight) => GeometryFlipped(s, m.to);
    case Man(_, King) =>
      GeometryFlipped(s, m.to);
      CastleMoveFlipped(p, m, c);
    case Man(_, k) => SliderMoveFlipped(p, k, s, m.to);
  }

  lemma PseudoLegalFlipped(p: Position, m: Move)
    ensures PseudoLegal(FlipPosition(p), FlipMove(m)) <==> PseudoLegal(p, m)
  {
    hide PieceMove;
    if PseudoLegal(p, m) {
      var s: Square :| PieceMove(p, s, p.side, m);
      PieceMoveFlipped(p, s, p.side, m);
    }
    if PseudoLegal(FlipPosition(p), FlipMove(m)) {
      var z: Square :| PieceMove(FlipPosition(p), z, Opposite(p.side), FlipMove(m));
      FlipTwice(z);
      PieceMoveFlipped(p, Flip(z), p.side, m);
    }
  }

  /** Each man has as many moves as its mirror image. */
  lemma PieceMoveCountFlipped(p: Position, s: Square, c: Color)
    ensures |PieceMoveSet(FlipPosition(p), Flip(s), Opposite(c))| == |PieceMoveSet(p, s, c)|
  {
    hide PieceMove;
    var here, there := PieceMoveSet(p, s, c), PieceMoveSet(FlipPosition(p), Flip(s), Opposite(c));
    forall m: Move
      ensures m in here <==> FlipMove(m) in there
      ensures FlipMove(FlipMove(m)) == m
    {
      PieceMoveFlipped(p, s, c, m);
      FlipMoveTwice(m);
    }
    forall n: Move | n in there
      ensures FlipMove(n) in here && FlipMove(FlipMove(n)) == n
    {
      FlipMoveTwice(n);
    }
    SameSize(here, there, FlipMove);
  }

  /** Hence the number of pseudo-legal moves is the same seen from either side. */
  lemma MoveCountFlipped(p: Position, c: Color)
    ensures MoveCount(FlipPosition(p), Opposite(c)) == MoveCount(p, c)
  {
    var xs, ys := MoveCounts(p, c), MoveCounts(FlipPosition(p), Opposite(c));
    forall s: Square
      ensures ys[s] == xs[Flip(s)]
    {
      PieceMoveCountFlipped(p, Flip(s), c);
      FlipTwice(s);
    }
    SumFlipped(xs, ys);
  }
}
