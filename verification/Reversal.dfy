/** Taking a move back: the undo record, its use, and why it restores the position. */
module Reversal {
  import opened Types
  import opened Rules

  /** What `make_move` saves before it changes anything. */
  datatype UndoInfo = UndoInfo(captured: Piece, rights: Rights, ep: Option<Square>, halfmove: int, key: bv64)

  function UndoFor(p: Position, m: Move, key: bv64): UndoInfo {
    UndoInfo(Captured(p, m), p.rights, p.ep, p.halfmove, key)
  }

  function RookBack(b: Placement, m: Move): Placement {
    var r := Rank(m.from);
    if m.flags.kingside then b[At(r, 7) := b[At(r, 5)]][At(r, 5) := Empty]
    else if m.flags.queenside then b[At(r, 0) := b[At(r, 3)]][At(r, 3) := Empty]
    else b
  }

  function Returned(q: Position, m: Move, captured: Piece): Placement {
    var side := Opposite(q.side);
    var mover := if m.flags.promotion then Man(side, Pawn) else q.squares[m.to];
    var b1 := q.squares[m.from := mover][m.to := Empty];
    var b2 := if m.flags.enPassant then b1[Behind(m.to, side) := captured] else b1[m.to := captured];
    RookBack(b2, m)
  }

  function Retract(q: Position, m: Move, u: UndoInfo): Position {
    var side := Opposite(q.side);
    Position(Returned(q, m, u.captured), side, u.rights, u.ep, u.halfmove,
      if side == Black then q.fullmove - 1 else q.fullmove)
  }

  /** The squares a castling move touches are as castling needs them. */
  predicate CastleReady(p: Position, m: Move, rookFrom: Square, rookTo: Square) {
    && !m.flags.promotion && !m.flags.enPassant
    && m.to != rookFrom && m.to != rookTo && m.from != rookFrom && m.from != rookTo
    && p.squares[rookFrom] == Man(p.side, Rook) && p.squares[rookTo] == Empty
  }

  /** What make/undo needs of a move; it follows from the invariant for every generated move. */
  predicate Playable(p: Position, m: Move) {
    && Own(p.squares, m.from, p.side)
    && m.from != m.to
    && (m.flags.promotion ==> p.squares[m.from].kind == Pawn && m.promo.Some?)
    && (m.flags.doublePush ==> OnBoard(Rank(m.to) - Forward(p.side), File(m.to)))
    && (m.flags.enPassant ==>
          && OnBoard(Rank(m.to) - Forward(p.side), File(m.to))
          && Rank(m.from) == Rank(m.to) - Forward(p.side) && File(m.from) != File(m.to)
          && p.squares[m.to] == Empty && p.squares[Behind(m.to, p.side)] == Man(Opposite(p.side), Pawn))
    && (m.flags.kingside ==>
          !m.flags.queenside && CastleReady(p, m, At(Rank(m.from), 7), At(Rank(m.from), 5)))
    && (m.flags.queenside ==>
          !m.flags.kingside && CastleReady(p, m, At(Rank(m.from), 0), At(Rank(m.from), 3)))
  }

  /** A castling move as far as the squares and rights tell. */
  predicate CastleShape(p: Position, m: Move) {
    if p.side == White then
      || (m == Move(E1, G1, KINGSIDE_CASTLE, None) && p.rights.wk && p.squares[F1] == p.squares[G1] == Empty)
      || (m == Move(E1, C1, QUEENSIDE_CASTLE, None) && p.rights.wq && p.squares[D1] == p.squares[C1] == Empty)
    else
      || (m == Move(E8, G8, KINGSIDE_CASTLE, None) && p.rights.bk && p.squares[F8] == p.squares[G8] == Empty)
      || (m == Move(E8, C8, QUEENSIDE_CASTLE, None) && p.rights.bq && p.squares[D8] == p.squares[C8] == Empty)
  }

  /** What a generated move looks like, forgetting the lines it needs. */
  predicate Shape(p: Position, m: Move) {
    && Own(p.squares, m.from, p.side)
    && !Own(p.squares, m.to, p.side)
    && m.from != m.to
    && (|| (p.squares[m.from].kind == Pawn && PawnMove(p, m, p.side))
        || (p.squares[m.from].kind != Pawn && Plain(m))
        || CastleShape(p, m))
  }

  lemma PieceMoveShape(p: Position, s: Square, m: Move)
    requires RightsBacked(p) && EnPassantBacked(p)
    requires PieceMove(p, s, p.side, m)
    ensures Shape(p, m)
  {
    match p.squares[s].kind
    case Pawn =>
      if PawnEnPassant(p, m, p.side) {
        assert p.squares[m.to] == Empty;
      }
    case King =>
      if CastleMove(p, m, p.side) {
        assert CastleShape(p, m);
      }
    case _ =>
  }

  lemma PseudoLegalShape(p: Position, m: Move)
    requires RightsBacked(p) && EnPassantBacked(p)
    requires PseudoLegal(p, m)
    ensures Shape(p, m)
  {
    var s: Square :| PieceMove(p, s, p.side, m);
    PieceMoveShape(p, s, m);
  }

  lemma ShapeIsPlayable(p: Position, m: Move)
    requires RightsBacked(p) && EnPassantBacked(p)
    requires Shape(p, m)
    ensures Playable(p, m)
  {
    if CastleShape(p, m) {
    } else if p.squares[m.from].kind == Pawn {
      if PawnEnPassant(p, m, p.side) {
      } else if PawnDouble(p, m, p.side) {
      }
    }
  }

  /** The board after a playable move, square by square. */
  function PieceAfter(p: Position, m: Move, j: Square): Piece {
    if j == m.from then Empty
    else if j == m.to then Arriving(p, m)
    else if m.flags.enPassant && j == Behind(m.to, p.side) then Empty
    else if m.flags.kingside && j == At(Rank(m.from), 7) then Empty
    else if m.flags.kingside && j == At(Rank(m.from), 5) then Man(p.side, Rook)
    else if m.flags.queenside && j == At(Rank(m.from), 0) then Empty
    else if m.flags.queenside && j == At(Rank(m.from), 3) then Man(p.side, Rook)
    else p.squares[j]
  }

  lemma SquareAfter(p: Position, m: Move, j: Square)
    requires Playable(p, m)
    ensures Relocated(p, m)[j] == PieceAfter(p, m, j)
  {
  }

  /** Taking back a generated move restores every field of every reachable position. */
  lemma RetractUndoesApply(p: Position, m: Move, key: bv64)
    requires Playable(p, m)
    ensures Retract(Apply(p, m), m, UndoFor(p, m, key)) == p
  {
    var q := Apply(p, m);
    var b := Returned(q, m, Captured(p, m));
    forall s: Square
      ensures b[s] == p.squares[s]
    {
    }
    assert b == p.squares;
  }
}
