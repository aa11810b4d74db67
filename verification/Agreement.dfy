/**
 The reverse attack scan and the forward generator are written separately in the source.
 Both are proved against the definitions of Rules.dfy; here the definitions are tied together.
 */
module Agreement {
  import opened Types
  import opened Rules

  predicate Aligned(x: Square, y: Square) {
    Straight(x, y) || Diagonal(x, y)
  }

  /** Walking from `y` back to `x` visits the squares of the walk from `x` to `y`. */
  lemma StepPieceReversed(b: Placement, x: Square, y: Square, k: int)
    requires Aligned(x, y) && 0 <= k <= Dist(x, y)
    ensures StepPiece(b, y, RankDir(y, x), FileDir(y, x), k)
         == StepPiece(b, x, RankDir(x, y), FileDir(x, y), Dist(x, y) - k)
  {
  }

  lemma LineClearReversed(b: Placement, x: Square, y: Square)
    requires Aligned(x, y) && LineClear(b, x, y)
    ensures LineClear(b, y, x)
  {
    forall k | 1 <= k < Dist(y, x)
      ensures StepPiece(b, y, RankDir(y, x), FileDir(y, x), k) == Empty
    {
      StepPieceReversed(b, x, y, k);
      assert StepPiece(b, x, RankDir(x, y), FileDir(x, y), Dist(x, y) - k) == Empty;
    }
  }

  /** Some move of the generator, with the side to move on the attack, lands on `t`. */
  ghost predicate MoveLandsOn(p: Position, t: Square) {
    exists m: Move :: PseudoLegal(p, m) && m.to == t
  }

  /** The promotion or plain form of a move from `x` to `t`. */
  function MoveTo(p: Position, x: Square, t: Square): Move {
    if p.squares[x] == Man(p.side, Pawn) && Rank(t) == LastRank(p.side)
    then Move(x, t, PROMOTION, Some(Queen)) else Move(x, t, PLAIN, None)
  }

  lemma AttackerMoves(p: Position, x: Square, t: Square)
    requires Own(p.squares, x, p.side) && Attacks(p.squares, x, t) && Enemy(p.squares, t, p.side)
    ensures PseudoLegal(p, MoveTo(p, x, t))
  {
    assert PieceMove(p, x, p.side, MoveTo(p, x, t));
  }

  lemma MoverAttacks(p: Position, m: Move)
    requires PseudoLegal(p, m) && Enemy(p.squares, m.to, p.side)
    ensures Own(p.squares, m.from, p.side) && Attacks(p.squares, m.from, m.to)
  {
    var s: Square :| PieceMove(p, s, p.side, m);
  }

  /**
   For every board and every square holding an enemy of the side to move, the reverse scan
   finds an attacker exactly when the forward generator emits a move landing there.
   */
  lemma AttackScansAgree(p: Position, t: Square)
    requires Enemy(p.squares, t, p.side)
    ensures AttackedBy(p.squares, t, p.side) <==> MoveLandsOn(p, t)
  {
    if AttackedBy(p.squares, t, p.side) {
      var x: Square :| Own(p.squares, x, p.side) && Attacks(p.squares, x, t);
      AttackerMoves(p, x, t);
    }
    if MoveLandsOn(p, t) {
      var m: Move :| PseudoLegal(p, m) && m.to == t;
      MoverAttacks(p, m);
    }
  }

  /** No move of a well-formed position lands on a man of the mover's own colour. */
  lemma NoMoveOntoOwn(p: Position, t: Square)
    requires EnPassantBacked(p) && Own(p.squares, t, p.side)
    ensures !MoveLandsOn(p, t)
  {
    hide AttackedBy, LineClear, Attacks;
    forall m: Move, s: Square | PieceMove(p, s, p.side, m)
      ensures m.to != t
    {
    }
  }

  /**
   On any occupied square of a well-formed position the two agree exactly when the square
   holds an enemy, or the scan finds nothing: a defended man of one's own is attacked, but no
   move lands there.
   */
  lemma AgreementOnOccupied(p: Position, t: Square)
    requires EnPassantBacked(p) && p.squares[t].Man?
    ensures (AttackedBy(p.squares, t, p.side) <==> MoveLandsOn(p, t))
      <==> Enemy(p.squares, t, p.side) || !AttackedBy(p.squares, t, p.side)
  {
    hide AttackedBy, MoveLandsOn;
    if Enemy(p.squares, t, p.side) {
      AttackScansAgree(p, t);
    } else {
      NoMoveOntoOwn(p, t);
    }
  }

  /** At the start the king defends the queen: attacked, yet nothing lands on it. */
  lemma DefendedManDisagrees()
    ensures AttackedBy(START.squares, D1, White) && !MoveLandsOn(START, D1)
  {
    assert START.squares[D1] == Man(White, Queen);
    assert START.squares[E1] == Man(White, King) && Attacks(START.squares, E1, D1);
    NoMoveOntoOwn(START, D1);
  }
}
