/** Every legal move keeps the invariant of reachable positions, so every line of play does. */
module Invariant {
  import opened Types
  import opened Rules
  import opened Agreement
  import opened Reversal

  lemma SoleKingFound(b: Placement, c: Color, k: Square)
    requires SoleKing(b, c, k)
    ensures FindKing(b, c) == k
  {
    assert b[k] == Man(c, King);
  }

  /** A generated move never captures a king: that king would already be in check. */
  lemma KingNotCaptured(p: Position, m: Move)
    requires Inv(p) && PseudoLegal(p, m)
    ensures p.squares[m.to] != Man(Opposite(p.side), King)
  {
    if p.squares[m.to] == Man(Opposite(p.side), King) {
      var k: Square :| SoleKing(p.squares, Opposite(p.side), k);
      SoleKingFound(p.squares, Opposite(p.side), k);
      MoverAttacks(p, m);
      assert AttackedBy(p.squares, m.to, p.side);
      assert false;
    }
  }

  /** Where the king of colour `c` stands after `m`. */
  function KingAfter(p: Position, m: Move, k: Square): Square {
    if m.from == k then m.to else k
  }

  lemma KingSquareKept(p: Position, m: Move, c: Color, k: Square, j: Square)
    requires SoleKing(p.squares, c, k) && Playable(p, m)
    requires m.flags.promotion ==> PromotionKind(m.promo)
    requires p.squares[m.to] != Man(Opposite(p.side), King)
    requires !Own(p.squares, m.to, p.side)
    ensures PieceAfter(p, m, j) == Man(c, King) <==> j == KingAfter(p, m, k)
  {
    assert p.squares[j] == Man(c, King) <==> j == k;
    assert p.squares[m.from] == Man(c, King) <==> m.from == k;
    assert p.squares[m.to] == Man(c, King) <==> m.to == k;
  }

  lemma KingsKept(p: Position, m: Move, c: Color)
    requires OneKing(p.squares, c) && Shape(p, m) && Playable(p, m)
    requires p.squares[m.to] != Man(Opposite(p.side), King)
    ensures OneKing(Apply(p, m).squares, c)
  {
    var k: Square :| SoleKing(p.squares, c, k);
    forall j: Square
      ensures Relocated(p, m)[j] == Man(c, King) <==> j == KingAfter(p, m, k)
    {
      SquareAfter(p, m, j);
      KingSquareKept(p, m, c, k, j);
    }
    assert SoleKing(Relocated(p, m), c, KingAfter(p, m, k));
  }

  /** A piece off the squares a move touches stays. */
  lemma UntouchedSquare(p: Position, m: Move, j: Square)
    requires Playable(p, m)
    requires m.from != j && m.to != j
    requires m.flags.kingside || m.flags.queenside ==> Rank(j) != Rank(m.from)
    requires p.squares[j].Man? && p.squares[j].kind != Pawn
    ensures Relocated(p, m)[j] == p.squares[j]
  {
    SquareAfter(p, m, j);
  }

  /** The king and a rook of colour `c` stay at home unless the move touches them. */
  lemma RightKept(p: Position, m: Move, c: Color, king: Square, rook: Square)
    requires Shape(p, m) && Playable(p, m)
    requires p.squares[m.to] != Man(Opposite(p.side), King)
    requires Rank(king) == Rank(rook) == (if c == White then 0 else 7)
    requires king == (if c == White then E1 else E8)
    requires p.squares[king] == Man(c, King) && p.squares[rook] == Man(c, Rook)
    requires m.from != king && m.from != rook && m.to != rook
    ensures Relocated(p, m)[king] == Man(c, King) && Relocated(p, m)[rook] == Man(c, Rook)
  {
    assert m.to != king;
    if m.flags.kingside || m.flags.queenside {
      assert CastleShape(p, m);
      assert p.side != c;
    }
    UntouchedSquare(p, m, king);
    UntouchedSquare(p, m, rook);
  }

  lemma RightsKept(p: Position, m: Move)
    requires RightsBacked(p) && Shape(p, m) && Playable(p, m)
    requires p.squares[m.to] != Man(Opposite(p.side), King)
    ensures RightsBacked(Apply(p, m))
  {
    var r := UpdatedRights(p.rights, m.from, m.to);
    if r.wk { RightKept(p, m, White, E1, H1); }
    if r.wq { RightKept(p, m, White, E1, A1); }
    if r.bk { RightKept(p, m, Black, E8, H8); }
    if r.bq { RightKept(p, m, Black, E8, A8); }
  }

  lemma EnPassantKept(p: Position, m: Move)
    requires Shape(p, m)
    ensures EnPassantBacked(Apply(p, m))
  {
    if m.flags.doublePush {
      assert PawnDouble(p, m, p.side);
    }
  }

  lemma EndPawnsKept(p: Position, m: Move)
    requires NoEndPawns(p.squares) && Shape(p, m) && Playable(p, m)
    ensures NoEndPawns(Apply(p, m).squares)
  {
    var b := Relocated(p, m);
    assert p.squares[m.from].kind == Pawn ==> 0 < Rank(m.from) < 7;
    forall s: Square | b[s].Man? && b[s].kind == Pawn
      ensures 0 < Rank(s) < 7
    {
      if s != m.to {
        assert b[s] == p.squares[s];
      }
    }
  }

  /** One legal move from a position that satisfies the invariant leads to another. */
  lemma LegalMoveKeepsInvariant(p: Position, m: Move)
    requires Inv(p) && Legal(p, m)
    ensures Inv(Apply(p, m))
  {
    KingNotCaptured(p, m);
    PseudoLegalShape(p, m);
    ShapeIsPlayable(p, m);
    KingsKept(p, m, White);
    KingsKept(p, m, Black);
    RightsKept(p, m);
    EnPassantKept(p, m);
    EndPawnsKept(p, m);
  }

  lemma StartHasOneKing(c: Color)
    ensures SoleKing(START.squares, c, if c == White then E1 else E8)
  {
    forall j: Square
      ensures START.squares[j] == Man(c, King) <==> j == (if c == White then E1 else E8)
    {
      assert START.squares[j] == StartPiece(j);
    }
  }

  lemma StartIsQuiet(x: Square)
    requires StartPiece(x).Man? && StartPiece(x).color == White
    ensures !Attacks(START.squares, x, E8)
  {
    assert START.squares[x] == StartPiece(x);
    assert Rank(x) <= 1;
  }

  lemma StartSatisfiesInvariant()
    ensures Inv(START)
  {
    var b := START.squares;
    StartHasOneKing(White);
    StartHasOneKing(Black);
    SoleKingFound(b, Black, E8);
    forall x: Square
      ensures b[x] == StartPiece(x)
    {
    }
    forall x: Square | Own(b, x, White)
      ensures !Attacks(b, x, E8)
    {
      StartIsQuiet(x);
    }
    assert RightsBacked(START);
    forall s: Square | b[s].Man? && b[s].kind == Pawn
      ensures 0 < Rank(s) < 7
    {
      assert b[s] == StartPiece(s);
    }
  }

  /** Every position reached by a line of legal moves satisfies the invariant. */
  lemma {:induction false} ReachablePositionsSatisfyInvariant(ms: seq<Move>)
    requires LegalLine(START, ms)
    ensures Inv(Replay(START, ms))
  {
    if ms == [] {
      StartSatisfiesInvariant();
    } else {
      ReachablePositionsSatisfyInvariant(ms[..|ms| - 1]);
      LegalMoveKeepsInvariant(Replay(START, ms[..|ms| - 1]), ms[|ms| - 1]);
    }
  }

  /**
   A generated move is kept as legal exactly when no reply, legal or not, could capture the
   king of the side that made it.
   */
  lemma LegalIffKingCannotBeTaken(p: Position, m: Move)
    requires Inv(p) && PseudoLegal(p, m)
    ensures var q := Apply(p, m);
      Legal(p, m) <==> !exists r: Move :: PseudoLegal(q, r) && q.squares[r.to] == Man(p.side, King)
  {
    var q := Apply(p, m);
    KingNotCaptured(p, m);
    PseudoLegalShape(p, m);
    ShapeIsPlayable(p, m);
    KingsKept(p, m, p.side);
    var k: Square :| SoleKing(q.squares, p.side, k);
    SoleKingFound(q.squares, p.side, k);
    AttackScansAgree(q, k);
    if r: Move :| PseudoLegal(q, r) && q.squares[r.to] == Man(p.side, King) {
      assert r.to == k;
    }
  }
}
