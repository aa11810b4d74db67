/** Zobrist keys: the hash of a position from scratch, and why the incremental update keeps it. */
module Zobrist {
  import opened Types
  import opened Rules
  import opened Reversal

  /** The key table `pieces[2][6][64]`, `castling[16]`, `en_passant[8]` and the side key, with any numbers in it. */
  datatype KeyTable = KeyTable(pieces: seq<bv64>, castling: seq<bv64>, enPassant: seq<bv64>, blackToMove: bv64)

  type Keys = k: KeyTable | |k.pieces| == 768 && |k.castling| == 16 && |k.enPassant| == 8
    witness KeyTable(seq(768, _ => 0), seq(16, _ => 0), seq(8, _ => 0), 0)

  function KindIndex(k: Kind): (i: int)
    ensures 0 <= i < 6
  {
    match k
    case Pawn => 0
    case Knight => 1
    case Bishop => 2
    case Rook => 3
    case Queen => 4
    case King => 5
  }

  function RightsMask(r: Rights): (i: int)
    ensures 0 <= i < 16
  {
    (if r.wk then 1 else 0) + (if r.wq then 2 else 0) + (if r.bk then 4 else 0) + (if r.bq then 8 else 0)
  }

  function ManKey(ks: Keys, c: Color, k: Kind, s: Square): bv64 {
    ks.pieces[((if c == White then 0 else 6) + KindIndex(k)) * 64 + s]
  }

  function CastlingKey(ks: Keys, r: Rights): bv64 {
    ks.castling[RightsMask(r)]
  }

  function Xor(a: bv64, b: bv64): bv64 {
    a ^ b
  }

  function PieceKey(ks: Keys, pc: Piece, s: Square): bv64 {
    if pc.Man? then ManKey(ks, pc.color, pc.kind, s) else 0
  }

  function EnPassantKey(ks: Keys, ep: Option<Square>): bv64 {
    if ep.Some? then ks.enPassant[File(ep.value)] else 0
  }

  function SideKey(ks: Keys, c: Color): bv64 {
    if c == Black then ks.blackToMove else 0
  }

  /** The exclusive or of the keys of the pieces on the first `n` squares. */
  function SquaresHash(ks: Keys, b: Placement, n: nat := 64): bv64
    requires n <= 64
  {
    if n == 0 then 0 else Xor(SquaresHash(ks, b, n - 1), PieceKey(ks, b[n - 1], n - 1))
  }

  /** The from-scratch meaning of the key. */
  function Hash(ks: Keys, p: Position): bv64 {
    Xor(Xor(Xor(SquaresHash(ks, p.squares), SideKey(ks, p.side)), CastlingKey(ks, p.rights)), EnPassantKey(ks, p.ep))
  }

  // ---------------------------------------------------------------- the incremental key

  function RookKeys(ks: Keys, c: Color, m: Move): bv64 {
    var r := Rank(m.from);
    if m.flags.kingside then Xor(ManKey(ks, c, Rook, At(r, 7)), ManKey(ks, c, Rook, At(r, 5)))
    else if m.flags.queenside then Xor(ManKey(ks, c, Rook, At(r, 0)), ManKey(ks, c, Rook, At(r, 3)))
    else 0
  }

  /** Where the captured man stands. */
  function CaptureSquare(p: Position, m: Move): Square {
    if m.flags.enPassant then Behind(m.to, MoverColor(p, m)) else m.to
  }

  /** The part of the update that follows the pieces. */
  function BoardKey(ks: Keys, p: Position, m: Move, key: bv64): bv64 {
    var k1 := Xor(key, PieceKey(ks, p.squares[m.from], m.from));
    var k2 := Xor(k1, RookKeys(ks, MoverColor(p, m), m));
    var k3 := Xor(k2, PieceKey(ks, Captured(p, m), CaptureSquare(p, m)));
    Xor(k3, PieceKey(ks, Arriving(p, m), m.to))
  }

  /** The part of the update that follows the en-passant target, the rights and the side. */
  function StateKey(ks: Keys, key: bv64, ep: Option<Square>, ep': Option<Square>, r: Rights, r': Rights): bv64 {
    var k5 := Xor(Xor(key, EnPassantKey(ks, ep)), EnPassantKey(ks, ep'));
    Xor(Xor(k5, Xor(CastlingKey(ks, r), CastlingKey(ks, r'))), ks.blackToMove)
  }

  /** The key after a move, from the key before it and the squares the move touches. */
  function UpdatedKey(ks: Keys, p: Position, m: Move, key: bv64): bv64 {
    var q := Apply(p, m);
    StateKey(ks, BoardKey(ks, p, m, key), p.ep, q.ep, p.rights, q.rights)
  }

  lemma XorPair(h: bv64, x: bv64, y: bv64)
    ensures Xor(h, Xor(x, y)) == Xor(Xor(h, x), y)
  {
    assert h ^ (x ^ y) == (h ^ x) ^ y;
  }

  lemma XorCommutes(x: bv64, y: bv64)
    ensures Xor(x, y) == Xor(y, x)
  {
  }

  lemma XorUnits(x: bv64)
    ensures Xor(x, 0) == x
    ensures Xor(0, x) == x
    ensures Xor(x, x) == 0
  {
  }

  lemma XorSwap(h: bv64, x: bv64, y: bv64)
    ensures Xor(Xor(h, x), y) == Xor(Xor(h, y), x)
  {
    hide Xor;
    XorPair(h, x, y);
    XorPair(h, y, x);
    XorCommutes(x, y);
  }

  lemma XorCancel(h: bv64, x: bv64)
    ensures Xor(Xor(h, x), x) == h
    ensures Xor(h, 0) == h
  {
    hide Xor;
    XorPair(h, x, x);
    XorUnits(x);
    XorUnits(h);
  }

  /** Replacing one square changes the hash by the two keys of that square. */
  lemma {:induction false} SquareReplaced(ks: Keys, b: Placement, s: Square, pc: Piece, n: nat := 64)
    requires n <= 64
    ensures SquaresHash(ks, b[s := pc], n) ==
      if s < n then Xor(Xor(SquaresHash(ks, b, n), PieceKey(ks, b[s], s)), PieceKey(ks, pc, s))
      else SquaresHash(ks, b, n)
  {
    hide Xor;
    if n > 0 {
      SquareReplaced(ks, b, s, pc, n - 1);
      var h := SquaresHash(ks, b, n - 1);
      var last := PieceKey(ks, b[n - 1], n - 1);
      if s < n - 1 {
        XorSwap(Xor(h, PieceKey(ks, b[s], s)), PieceKey(ks, pc, s), last);
        XorSwap(h, PieceKey(ks, b[s], s), last);
      } else if s == n - 1 {
        XorCancel(h, last);
      }
    }
  }

  /** Moving the castling rook changes the hash by the keys of its two squares. */
  lemma RookHash(ks: Keys, p: Position, m: Move)
    requires Playable(p, m)
    ensures SquaresHash(ks, CastleRook(p.squares, m)) == Xor(SquaresHash(ks, p.squares), RookKeys(ks, p.side, m))
  {
    hide Xor;
    var h := SquaresHash(ks, p.squares);
    XorCancel(h, 0);
    if m.flags.kingside || m.flags.queenside {
      var from, to := At(Rank(m.from), if m.flags.kingside then 7 else 0), At(Rank(m.from), if m.flags.kingside then 5 else 3);
      var rook := p.squares[from];
      SquareReplaced(ks, p.squares, to, rook);
      SquareReplaced(ks, p.squares[to := rook], from, Empty);
      var x, y := PieceKey(ks, rook, from), PieceKey(ks, rook, to);
      XorCancel(Xor(Xor(h, y), x), 0);
      XorSwap(h, y, x);
      XorPair(h, x, y);
    }
  }

  /** Lifting the captured man off its square. */
  function Lifted(p: Position, m: Move): Placement {
    CastleRook(p.squares, m)[CaptureSquare(p, m) := Empty]
  }

  lemma LiftedHash(ks: Keys, p: Position, m: Move)
    requires Playable(p, m)
    ensures SquaresHash(ks, Lifted(p, m))
      == Xor(Xor(SquaresHash(ks, p.squares), RookKeys(ks, p.side, m)), PieceKey(ks, Captured(p, m), CaptureSquare(p, m)))
  {
    hide Xor;
    RookHash(ks, p, m);
    var b1 := CastleRook(p.squares, m);
    SquareReplaced(ks, b1, CaptureSquare(p, m), Empty);
    assert b1[CaptureSquare(p, m)] == Captured(p, m);
    XorCancel(Xor(SquaresHash(ks, b1), PieceKey(ks, Captured(p, m), CaptureSquare(p, m))), 0);
  }

  /** The board of a move is the lifted board with the mover taken off and set down again. */
  lemma RelocatedIsLifted(p: Position, m: Move)
    requires Playable(p, m)
    ensures Relocated(p, m) == Lifted(p, m)[m.from := Empty][m.to := Arriving(p, m)]
    ensures Lifted(p, m)[m.from] == p.squares[m.from]
    ensures Lifted(p, m)[m.from := Empty][m.to] == Empty
  {
    forall j: Square
      ensures Relocated(p, m)[j] == Lifted(p, m)[m.from := Empty][m.to := Arriving(p, m)][j]
    {
    }
    assert Relocated(p, m) == Lifted(p, m)[m.from := Empty][m.to := Arriving(p, m)];
  }

  lemma RelocatedHash(ks: Keys, p: Position, m: Move)
    requires Playable(p, m)
    ensures SquaresHash(ks, Relocated(p, m))
      == Xor(Xor(SquaresHash(ks, Lifted(p, m)), PieceKey(ks, p.squares[m.from], m.from)), PieceKey(ks, Arriving(p, m), m.to))
  {
    hide Xor;
    RelocatedIsLifted(p, m);
    var b := Lifted(p, m);
    SquareReplaced(ks, b, m.from, Empty);
    SquareReplaced(ks, b[m.from := Empty], m.to, Arriving(p, m));
    XorCancel(Xor(SquaresHash(ks, b), PieceKey(ks, p.squares[m.from], m.from)), 0);
  }

  lemma SideToggled(ks: Keys, c: Color)
    ensures SideKey(ks, Opposite(c)) == Xor(SideKey(ks, c), ks.blackToMove)
  {
    hide Xor;
    XorUnits(ks.blackToMove);
  }

  /** A change to the board part of a hash may be made at the end instead. */
  lemma BoardPart(h: bv64, s: bv64, c: bv64, e: bv64, z: bv64)
    ensures Xor(Xor(Xor(Xor(h, s), c), e), z) == Xor(Xor(Xor(Xor(h, z), s), c), e)
  {
    hide Xor;
    XorSwap(Xor(Xor(h, s), c), e, z);
    XorSwap(Xor(h, s), c, z);
    XorSwap(h, s, z);
  }

  /** Exchanging the side, castling and en-passant parts of a hash. */
  lemma OtherParts(h: bv64, s: bv64, c: bv64, e: bv64, e': bv64, c': bv64, b: bv64)
    ensures Xor(Xor(Xor(Xor(Xor(Xor(Xor(h, s), c), e), e), e'), Xor(c, c')), b) == Xor(Xor(Xor(h, Xor(s, b)), c'), e')
  {
    hide Xor;
    var x := Xor(h, s);
    XorCancel(Xor(x, c), e);
    XorPair(Xor(Xor(x, c), e'), c, c');
    XorSwap(Xor(x, c), e', c);
    XorCancel(x, c);
    XorSwap(x, e', c');
    XorSwap(Xor(x, c'), e', b);
    XorSwap(x, c', b);
    XorPair(h, s, b);
  }

  /** On a playable move the incremental key of the hash is the hash of the new position. */
  lemma KeyFollowsMove(ks: Keys, p: Position, m: Move)
    requires Playable(p, m)
    ensures UpdatedKey(ks, p, m, Hash(ks, p)) == Hash(ks, Apply(p, m))
  {
    hide Xor;
    LiftedHash(ks, p, m);
    RelocatedHash(ks, p, m);
    SideToggled(ks, p.side);
    var h, s, c, e := SquaresHash(ks, p.squares), SideKey(ks, p.side), CastlingKey(ks, p.rights), EnPassantKey(ks, p.ep);
    var from, rook := PieceKey(ks, p.squares[m.from], m.from), RookKeys(ks, p.side, m);
    var cap, arr := PieceKey(ks, Captured(p, m), CaptureSquare(p, m)), PieceKey(ks, Arriving(p, m), m.to);
    BoardPart(h, s, c, e, from);
    BoardPart(Xor(h, from), s, c, e, rook);
    BoardPart(Xor(Xor(h, from), rook), s, c, e, cap);
    BoardPart(Xor(Xor(Xor(h, from), rook), cap), s, c, e, arr);
    XorSwap(h, from, rook);
    XorSwap(Xor(h, rook), from, cap);
    var q := Apply(p, m);
    OtherParts(SquaresHash(ks, q.squares), s, c, e, EnPassantKey(ks, q.ep), CastlingKey(ks, q.rights), ks.blackToMove);
  }
}
