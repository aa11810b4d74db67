/** The mutable mailbox board: moves are made and taken back in place. */
module BoardState {
  import opened Types
  import opened Rules
  import opened Reversal
  import opened Zobrist

  class Board {
    const keys: Keys
    const squares: array<Piece>
    var side: Color
    var rights: Rights
    var ep: Option<Square>
    var halfmove: int
    var fullmove: int
    var key: bv64

    predicate Valid() {
      squares.Length == 64
    }

    /** The board as a value, without the key. */
    function View(): Position
      requires Valid()
      reads this, squares
    {
      Position(squares[..], side, rights, ep, halfmove, fullmove)
    }

    /** The stored key is the hash of what is on the board. */
    predicate Keyed()
      requires Valid()
      reads this, squares
    {
      key == Hash(keys, View())
    }

    /** An empty board, White to move, no rights. */
    constructor (ks: Keys)
      ensures Valid() && fresh(squares) && keys == ks && Keyed()
      ensures View() == Position(seq(64, _ => Empty), White, NO_RIGHTS, None, 0, 1)
    {
      hide Hash;
      keys := ks;
      squares := new Piece[64](_ => Empty);
      side := White;
      rights := NO_RIGHTS;
      ep := None;
      halfmove := 0;
      fullmove := 1;
      new;
      assert squares[..] == seq(64, _ => Empty);
      key := ComputeHash();
    }

    constructor StartingPosition(ks: Keys)
      ensures Valid() && fresh(squares) && keys == ks && Keyed()
      ensures View() == START
    {
      hide Hash;
      keys := ks;
      squares := new Piece[64](i requires 0 <= i < 64 => StartPiece(i));
      side := White;
      rights := Rights(true, true, true, true);
      ep := None;
      halfmove := 0;
      fullmove := 1;
      new;
      assert squares[..] == StartSquares();
      key := ComputeHash();
    }

    /** Assignment of one board to a new one. */
    constructor Copy(b: Board)
      requires b.Valid()
      ensures Valid() && fresh(squares) && keys == b.keys
      ensures View() == b.View() && key == b.key
    {
      keys := b.keys;
      var copied := new Piece[64];
      forall i | 0 <= i < 64 {
        copied[i] := b.squares[i];
      }
      squares := copied;
      side := b.side;
      rights := b.rights;
      ep := b.ep;
      halfmove := b.halfmove;
      fullmove := b.fullmove;
      key := b.key;
      new;
      assert squares[..] == b.squares[..];
    }

    /** The key from scratch. */
    method ComputeHash() returns (hash: bv64)
      requires Valid()
      ensures hash == Hash(keys, View())
    {
      hide Xor;
      hash := 0;
      ghost var b := squares[..];
      for s := 0 to 64
        invariant hash == SquaresHash(keys, b, s)
      {
        assert b[s] == squares[s];
        assert SquaresHash(keys, b, s + 1) == Xor(SquaresHash(keys, b, s), PieceKey(keys, b[s], s));
        if squares[s].Man? {
          hash := Xor(hash, ManKey(keys, squares[s].color, squares[s].kind, s));
        } else {
          XorCancel(hash, 0);
        }
      }
      ghost var h := hash;
      XorCancel(h, 0);
      if side == Black {
        hash := Xor(hash, keys.blackToMove);
      }
      hash := Xor(hash, CastlingKey(keys, rights));
      XorCancel(hash, 0);
      if ep.Some? {
        hash := Xor(hash, keys.enPassant[File(ep.value)]);
      }
    }

    /** The first square holding the king of `c`, or 64. */
    method LocateKing(c: Color) returns (k: int)
      requires Valid()
      ensures k == FindKing(squares[..], c)
    {
      k := 0;
      while k < 64 && squares[k] != Man(c, King)
        invariant 0 <= k <= 64
        invariant FindKing(squares[..], c) == FindKing(squares[..], c, k)
      {
        k := k + 1;
      }
    }

    method UpdateCastlingRights(from: Square, to: Square)
      modifies this`rights
      ensures rights == UpdatedRights(old(rights), from, to)
    {
      if from == E1 {
        rights := rights.(wk := false, wq := false);
      }
      if from == E8 {
        rights := rights.(bk := false, bq := false);
      }
      if from == H1 || to == H1 {
        rights := rights.(wk := false);
      }
      if from == A1 || to == A1 {
        rights := rights.(wq := false);
      }
      if from == H8 || to == H8 {
        rights := rights.(bk := false);
      }
      if from == A8 || to == A8 {
        rights := rights.(bq := false);
      }
    }

    /** Step 1: a castling move also carries the rook. */
    method MoveCastlingRook(m: Move, c: Color)
      requires Valid()
      modifies squares, this`key
      ensures squares[..] == CastleRook(old(squares[..]), m)
      ensures key == Xor(old(key), RookKeys(keys, c, m))
    {
      hide Xor;
      var r := Rank(m.from);
      if m.flags.kingside {
        squares[At(r, 5)] := squares[At(r, 7)];
        squares[At(r, 7)] := Empty;
        key := Xor(key, Xor(ManKey(keys, c, Rook, At(r, 7)), ManKey(keys, c, Rook, At(r, 5))));
      } else if m.flags.queenside {
        squares[At(r, 3)] := squares[At(r, 0)];
        squares[At(r, 0)] := Empty;
        key := Xor(key, Xor(ManKey(keys, c, Rook, At(r, 0)), ManKey(keys, c, Rook, At(r, 3))));
      } else {
        XorCancel(key, 0);
      }
    }

    /** Step 2: the captured man leaves the key, and the board if it was taken in passing. */
    method RemoveCaptured(m: Move, c: Color, onTarget: Piece) returns (captured: Piece)
      requires Valid()
      requires m.flags.enPassant ==> OnBoard(Rank(m.to) - Forward(c), File(m.to)) && squares[Behind(m.to, c)].Man?
      modifies squares, this`key
      ensures captured == if m.flags.enPassant then old(squares[Behind(m.to, c)]) else onTarget
      ensures squares[..] == if m.flags.enPassant then old(squares[..])[Behind(m.to, c) := Empty] else old(squares[..])
      ensures key == Xor(old(key), PieceKey(keys, captured, if m.flags.enPassant then Behind(m.to, c) else m.to))
    {
      hide Xor;
      captured := onTarget;
      if m.flags.enPassant {
        var taken := At(Rank(m.to) - Forward(c), File(m.to));
        captured := squares[taken];
        squares[taken] := Empty;
        key := Xor(key, ManKey(keys, captured.color, captured.kind, taken));
      } else if captured.Man? {
        key := Xor(key, ManKey(keys, captured.color, captured.kind, m.to));
      } else {
        XorCancel(key, 0);
      }
    }

    /** Steps 3 and 4: the mover travels, and a promoting pawn is replaced. */
    method PlaceMover(m: Move, mover: Piece)
      requires Valid() && mover.Man? && (m.flags.promotion ==> m.promo.Some?) && m.from != m.to
      modifies squares, this`key
      ensures var arriving := if m.flags.promotion then Man(mover.color, m.promo.value) else mover;
        && squares[..] == (var b := old(squares[..])[m.to := mover][m.from := Empty];
                           if m.flags.promotion then b[m.to := arriving] else b)
        && key == Xor(old(key), PieceKey(keys, arriving, m.to))
    {
      hide Xor;
      squares[m.to] := mover;
      squares[m.from] := Empty;
      if m.flags.promotion {
        squares[m.to] := Man(mover.color, m.promo.value);
        key := Xor(key, ManKey(keys, mover.color, m.promo.value, m.to));
      } else {
        key := Xor(key, ManKey(keys, mover.color, mover.kind, m.to));
      }
    }

    /** Step 5: a double push leaves an en-passant target, any other move none. */
    method UpdateEnPassant(m: Move, c: Color)
      requires m.flags.doublePush ==> OnBoard(Rank(m.to) - Forward(c), File(m.to))
      modifies this`ep, this`key
      ensures ep == if m.flags.doublePush then Some(Behind(m.to, c)) else None
      ensures key == Xor(Xor(old(key), EnPassantKey(keys, old(ep))), EnPassantKey(keys, ep))
    {
      hide Xor;
      XorCancel(key, 0);
      if ep.Some? {
        key := Xor(key, keys.enPassant[File(ep.value)]);
      }
      XorCancel(key, 0);
      if m.flags.doublePush {
        ep := Some(At(Rank(m.to) - Forward(c), File(m.to)));
        key := Xor(key, keys.enPassant[File(ep.value)]);
      } else {
        ep := None;
      }
    }

    /** Steps 1 to 4: every change to the squares, with the key kept in step. */
    method MovePieces(m: Move, ghost p: Position) returns (captured: Piece)
      requires Valid() && p == View() && Playable(p, m)
      modifies squares, this`key
      ensures squares[..] == Relocated(p, m)
      ensures captured == Captured(p, m)
      ensures key == BoardKey(keys, p, m, old(key))
    {
      hide Xor, Hash, SquaresHash;
      var mover := squares[m.from];
      var onTarget := squares[m.to];
      key := Xor(key, ManKey(keys, mover.color, mover.kind, m.from));
      MoveCastlingRook(m, mover.color);
      captured := RemoveCaptured(m, mover.color, onTarget);
      PlaceMover(m, mover);
    }

    /** Steps 5 to 9: en-passant target, rights, clocks and side, with the key kept in step. */
    method UpdateState(m: Move, mover: Piece, captured: Piece)
      requires mover.Man?
      requires m.flags.doublePush ==> OnBoard(Rank(m.to) - Forward(mover.color), File(m.to))
      modifies this`ep, this`rights, this`halfmove, this`fullmove, this`side, this`key
      ensures ep == if m.flags.doublePush then Some(Behind(m.to, mover.color)) else None
      ensures rights == UpdatedRights(old(rights), m.from, m.to)
      ensures halfmove == if mover.kind == Pawn || captured != Empty then 0 else old(halfmove) + 1
      ensures fullmove == if old(side) == Black then old(fullmove) + 1 else old(fullmove)
      ensures side == Opposite(old(side))
      ensures key == StateKey(keys, old(key), old(ep), ep, old(rights), rights)
    {
      hide Xor, EnPassantKey, CastlingKey, UpdatedRights;
      var oldRights := rights;
      UpdateEnPassant(m, mover.color);
      UpdateCastlingRights(m.from, m.to);
      key := Xor(key, Xor(CastlingKey(keys, oldRights), CastlingKey(keys, rights)));
      if mover.kind == Pawn || captured.Man? {
        halfmove := 0;
      } else {
        halfmove := halfmove + 1;
      }
      if side == Black {
        fullmove := fullmove + 1;
      }
      side := Opposite(side);
      key := Xor(key, keys.blackToMove);
    }

    /**
     Executes a move in place.  Like the source it does not test legality; what it needs of
     the caller is `Playable`, which every generated move meets on a reachable position.
     */
    method MakeMove(m: Move) returns (undo: UndoInfo)
      requires Valid() && Playable(View(), m)
      modifies this, squares
      ensures View() == Apply(old(View()), m)
      ensures undo == UndoFor(old(View()), m, old(key))
      ensures old(Keyed()) ==> Keyed()
    {
      hide Xor, Hash, BoardKey, StateKey, Relocated, Captured, UpdatedRights;
      ghost var p := View();
      var oldRights, oldEp, oldHalfmove, oldKey := rights, ep, halfmove, key;
      var mover := squares[m.from];
      var captured := MovePieces(m, p);
      UpdateState(m, mover, captured);
      undo := UndoInfo(captured, oldRights, oldEp, oldHalfmove, oldKey);
      KeyFollowsMove(keys, p, m);
    }

    /** Puts the pieces back; `c` made the move. */
    method ReturnPieces(m: Move, captured: Piece, c: Color, ghost q: Position)
      requires Valid() && q.squares == squares[..] && c == Opposite(q.side)
      requires m.flags.enPassant ==> OnBoard(Rank(m.to) - Forward(c), File(m.to))
      modifies squares
      ensures squares[..] == Returned(q, m, captured)
    {
      var mover := squares[m.to];
      if m.flags.promotion {
        mover := Man(c, Pawn);
      }
      squares[m.from] := mover;
      squares[m.to] := Empty;
      ghost var b1 := q.squares[m.from := mover][m.to := Empty];
      assert squares[..] == b1;
      if m.flags.enPassant {
        squares[At(Rank(m.to) - Forward(c), File(m.to))] := captured;
      } else {
        squares[m.to] := captured;
      }
      ghost var b2 := if m.flags.enPassant then b1[Behind(m.to, c) := captured] else b1[m.to := captured];
      assert squares[..] == b2;
      assert Returned(q, m, captured) == RookBack(b2, m);
      hide Behind;
      if m.flags.kingside {
        var r := Rank(m.from);
        squares[At(r, 7)] := squares[At(r, 5)];
        squares[At(r, 5)] := Empty;
      } else if m.flags.queenside {
        var r := Rank(m.from);
        squares[At(r, 0)] := squares[At(r, 3)];
        squares[At(r, 3)] := Empty;
      }
    }

    /** Reverses a move with the record `MakeMove` returned. */
    method UndoMove(m: Move, undo: UndoInfo)
      requires Valid()
      requires m.flags.enPassant ==> OnBoard(Rank(m.to) - Forward(Opposite(side)), File(m.to))
      modifies this, squares
      ensures View() == Retract(old(View()), m, undo)
      ensures key == undo.key
    {
      hide Returned;
      ReturnPieces(m, undo.captured, Opposite(side), View());
      side := Opposite(side);
      if side == Black {
        fullmove := fullmove - 1;
      }
      rights := undo.rights;
      ep := undo.ep;
      halfmove := undo.halfmove;
      key := undo.key;
    }
  }
}
