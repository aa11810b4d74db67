/**
 What a game of legal moves does, said of the moves themselves: which men leave the board, what
 becomes of rights, clocks, target and turn over a whole line, and what the moves look like as
 geometry.  Nothing here goes through the functions that compute a single move's effect.
 */
module MoveLaws {
  import opened Types
  import opened Rules
  import opened Agreement
  import opened Reversal
  import opened Invariant

  // ---------------------------------------------------------------- the men on the board

  /** Everything that stands on the board, empty squares included, wherever it stands. */
  function Men(p: Position): multiset<Piece> {
    multiset(p.squares)
  }

  lemma Replaced(b: Placement, i: Square, pc: Piece)
    ensures multiset(b[i := pc]) == multiset(b) - multiset{b[i]} + multiset{pc}
  {
  }

  lemma LegalShape(p: Position, m: Move)
    requires Inv(p) && Legal(p, m)
    ensures Shape(p, m) && Playable(p, m) && p.squares[m.from].Man?
  {
    hide InCheck;
    PseudoLegalShape(p, m);
    ShapeIsPlayable(p, m);
  }

  /** Moving the man on `x` to `y`. */
  lemma Moved(b: Placement, x: Square, y: Square)
    requires x != y
    ensures multiset(b[y := b[x]][x := Empty]) == multiset(b) - multiset{b[y]} + multiset{Empty}
  {
    Replaced(b, y, b[x]);
    Replaced(b[y := b[x]], x, Empty);
    assert b[y := b[x]][x] == b[x];
    assert b[y] in multiset(b);
  }

  /** Two men moved about, one after the other, onto empty squares. */
  lemma MovedTwice(b: Placement, x: Square, y: Square, u: Square, v: Square)
    requires x != y && u != v && u != x && u != y && v != x && v != y && b[y] == Empty && b[v] == Empty
    ensures multiset(b[y := b[x]][x := Empty][v := b[u]][u := Empty]) == multiset(b)
  {
    var c := b[y := b[x]][x := Empty];
    assert c[u] == b[u] && c[v] == Empty;
    Moved(b, x, y);
    Moved(c, u, v);
    assert b[y] in multiset(b) && c[v] in multiset(c);
  }

  /** Castling only moves men about. */
  lemma CastlingKeepsMen(p: Position, m: Move)
    requires Playable(p, m) && (m.flags.kingside || m.flags.queenside) && p.squares[m.to] == Empty
    ensures Men(Apply(p, m)) == Men(p)
  {
    hide Playable, CastleRook, CornerOf, CrossedBy;
    CastlingSquares(p, m);
    var x, y := CornerOf(m), CrossedBy(m);
    MovedTwice(p.squares, x, y, m.from, m.to);
    assert Relocated(p, m) == p.squares[y := p.squares[x]][x := Empty][m.to := p.squares[m.from]][m.from := Empty];
  }

  function CornerOf(m: Move): Square {
    At(Rank(m.from), if m.flags.kingside then 7 else 0)
  }

  function CrossedBy(m: Move): Square {
    At(Rank(m.from), if m.flags.kingside then 5 else 3)
  }

  lemma CastlingSquares(p: Position, m: Move)
    requires Playable(p, m) && (m.flags.kingside || m.flags.queenside)
    ensures var x, y := CornerOf(m), CrossedBy(m);
      && x != y && x != m.from && x != m.to && y != m.from && y != m.to && m.from != m.to
      && p.squares[y] == Empty && !m.flags.promotion && !m.flags.enPassant
      && CastleRook(p.squares, m) == p.squares[y := p.squares[x]][x := Empty]
  {
  }

  lemma EnPassantTakesPawn(p: Position, m: Move)
    requires Playable(p, m) && m.flags.enPassant && !m.flags.kingside && !m.flags.queenside && !m.flags.promotion
    ensures Men(Apply(p, m)) == Men(p) - multiset{Man(Opposite(p.side), Pawn)} + multiset{Empty}
  {
    hide Playable, Behind;
    PassedSquares(p, m);
    var x := Behind(m.to, p.side);
    var b := p.squares[x := Empty];
    Replaced(p.squares, x, Empty);
    Moved(b, m.from, m.to);
    assert b[m.to] in b && p.squares[x] in p.squares;
    assert Relocated(p, m) == b[m.to := p.squares[m.from]][m.from := Empty];
  }

  lemma PassedSquares(p: Position, m: Move)
    requires Playable(p, m) && m.flags.enPassant
    ensures var x := Behind(m.to, p.side);
      && x != m.from && x != m.to && m.from != m.to && MoverColor(p, m) == p.side
      && p.squares[x] == Man(Opposite(p.side), Pawn) && p.squares[m.to] == Empty
  {
  }

  lemma OrdinaryMoveMen(p: Position, m: Move)
    requires Playable(p, m) && !m.flags.enPassant && !m.flags.kingside && !m.flags.queenside
    ensures var after := Men(p) - multiset{p.squares[m.to]} + multiset{Empty};
      Men(Apply(p, m)) ==
        if m.flags.promotion then after - multiset{p.squares[m.from]} + multiset{PromotedMan(p, m)} else after
  {
    Moved(p.squares, m.from, m.to);
    var b := p.squares[m.to := p.squares[m.from]][m.from := Empty];
    if m.flags.promotion {
      Replaced(b, m.to, PromotedMan(p, m));
      assert b[m.to] == p.squares[m.from];
      assert Relocated(p, m) == b[m.to := PromotedMan(p, m)];
    } else {
      assert Relocated(p, m) == b;
    }
  }

  /** The man a move takes, or nothing. */
  function Lost(p: Position, m: Move): Piece {
    if m.flags.enPassant then Man(Opposite(p.side), Pawn) else p.squares[m.to]
  }

  function PromotedMan(p: Position, m: Move): Piece {
    Man(p.side, if m.promo.Some? then m.promo.value else Queen)
  }

  /**
   The men on the board after a legal move: all of them after an ordinary move or castling; one
   enemy fewer after a capture, en passant or not; a pawn exchanged for a piece after a promotion.
   */
  lemma MenAfter(p: Position, m: Move)
    requires Inv(p) && Legal(p, m)
    ensures Lost(p, m) in Men(p) && (Lost(p, m).Man? ==> Lost(p, m).color == Opposite(p.side))
    ensures var after := Men(p) - multiset{Lost(p, m)} + multiset{Empty};
      Men(Apply(p, m)) ==
        if m.flags.promotion then after - multiset{Man(p.side, Pawn)} + multiset{PromotedMan(p, m)} else after
  {
    hide Apply, Legal, Relocated, Shape, Playable, Inv, Men;
    LegalShape(p, m);
    LostIsEnemy(p, m);
    FlagsExclude(p, m);
    if m.flags.kingside || m.flags.queenside {
      CastlingKeepsMen(p, m);
    } else if m.flags.enPassant {
      EnPassantTakesPawn(p, m);
    } else {
      OrdinaryMoveMen(p, m);
    }
  }

  lemma LostIsEnemy(p: Position, m: Move)
    requires Shape(p, m) && Playable(p, m)
    ensures Lost(p, m) in Men(p) && (Lost(p, m).Man? ==> Lost(p, m).color == Opposite(p.side))
  {
    hide PawnMove, CastleShape;
    if m.flags.enPassant {
      assert p.squares[Behind(m.to, p.side)] in p.squares;
    } else {
      assert p.squares[m.to] in p.squares;
    }
  }

  lemma FlagsExclude(p: Position, m: Move)
    requires Shape(p, m)
    ensures m.flags.kingside || m.flags.queenside ==> p.squares[m.to] == Empty && !m.flags.enPassant && !m.flags.promotion
    ensures m.flags.enPassant ==> !m.flags.kingside && !m.flags.queenside
    ensures m.flags.promotion ==> p.squares[m.from] == Man(p.side, Pawn) && m.promo.Some? && PromotionKind(m.promo)
    ensures Inv(p) && m.flags.enPassant ==> p.squares[m.to] == Empty && !m.flags.promotion
  {
    hide InCheck;
  }

  /** A legal move changes the men on the board exactly if it takes one or promotes. */
  lemma MenChangeIff(p: Position, m: Move)
    requires Inv(p) && Legal(p, m)
    ensures Men(Apply(p, m)) != Men(p) <==> p.squares[m.to].Man? || m.flags.enPassant || m.flags.promotion
  {
    hide Apply, InCheck, Inv, Legal, Men;
    MenAfter(p, m);
    PromotesPawn(p, m);
    hide Lost;
    var lost := Lost(p, m);
    assert lost.Man? <==> p.squares[m.to].Man? || m.flags.enPassant by { LostIs(p, m); }
    if m.flags.promotion {
      assert Men(Apply(p, m))[Man(p.side, Pawn)] < Men(p)[Man(p.side, Pawn)];
    } else if lost.Man? {
      assert Men(Apply(p, m))[lost] < Men(p)[lost];
    }
  }

  lemma LostIs(p: Position, m: Move)
    ensures Lost(p, m).Man? <==> p.squares[m.to].Man? || m.flags.enPassant
  {
  }

  lemma PromotesPawn(p: Position, m: Move)
    requires Inv(p) && Legal(p, m)
    ensures m.flags.promotion ==> Man(p.side, Pawn) in Men(p) && PromotionKind(m.promo)
  {
    hide Legal, Inv, Shape, Playable;
    LegalShape(p, m);
    FlagsExclude(p, m);
    assert p.squares[m.from] in p.squares;
  }

  // ---------------------------------------------------------------- rights over a line

  /** No move of the line leaves or lands on `x`. */
  ghost predicate Untouched(ms: seq<Move>, x: Square) {
    forall i :: 0 <= i < |ms| ==> ms[i].from != x && ms[i].to != x
  }

  ghost predicate NeverLeft(ms: seq<Move>, x: Square) {
    forall i :: 0 <= i < |ms| ==> ms[i].from != x
  }

  /**
   After any line from the start each right is held exactly while no move has left the king's
   square or left or reached that rook's square.  The other rook does not matter.
   */
  lemma {:induction false} RightsOverLine(ms: seq<Move>)
    ensures var r := Replay(START, ms).rights;
      && (r.wk <==> NeverLeft(ms, E1) && Untouched(ms, H1))
      && (r.wq <==> NeverLeft(ms, E1) && Untouched(ms, A1))
      && (r.bk <==> NeverLeft(ms, E8) && Untouched(ms, H8))
      && (r.bq <==> NeverLeft(ms, E8) && Untouched(ms, A8))
  {
    hide Relocated, Captured;
    if ms != [] {
      var short, last := ms[..|ms| - 1], ms[|ms| - 1];
      RightsOverLine(short);
      assert ms == short + [last];
      OneMoreUntouched(short, last);
    }
  }

  lemma OneMoreUntouched(ms: seq<Move>, m: Move)
    ensures forall x: Square :: Untouched(ms + [m], x) <==> Untouched(ms, x) && m.from != x && m.to != x
    ensures forall x: Square :: NeverLeft(ms + [m], x) <==> NeverLeft(ms, x) && m.from != x
  {
    var all := ms + [m];
    assert all[|ms|] == m && forall i :: 0 <= i < |ms| ==> all[i] == ms[i];
  }

  // ---------------------------------------------------------------- turn and move number

  /** The sides alternate, White first, and the move number counts Black's moves. */
  lemma {:induction false} TurnOverLine(ms: seq<Move>)
    ensures var p := Replay(START, ms);
      && p.side == (if |ms| % 2 == 0 then White else Black)
      && p.fullmove == 1 + |ms| / 2
  {
    hide Relocated, Captured;
    if ms != [] {
      TurnOverLine(ms[..|ms| - 1]);
    }
  }

  // ---------------------------------------------------------------- the fifty-move count

  /** Where the pawns of both sides stand. */
  function PawnSquares(p: Position): set<Square> {
    set x: Square | p.squares[x].Man? && p.squares[x].kind == Pawn
  }

  /** Nothing has happened that could not be taken back: the pawns stand where they stood, and nobody is gone. */
  predicate Reversible(p: Position, q: Position) {
    PawnSquares(q) == PawnSquares(p) && Men(q) == Men(p)
  }

  lemma PawnLeaves(p: Position, m: Move)
    requires Inv(p) && Legal(p, m) && p.squares[m.from].Man? && p.squares[m.from].kind == Pawn
    ensures m.from in PawnSquares(p) && m.from !in PawnSquares(Apply(p, m))
  {
    PseudoLegalShape(p, m);
    ShapeIsPlayable(p, m);
    SquareAfter(p, m, m.from);
  }

  lemma PawnsStay(p: Position, m: Move)
    requires Inv(p) && Legal(p, m) && p.squares[m.from].kind != Pawn && p.squares[m.to] == Empty
    ensures PawnSquares(Apply(p, m)) == PawnSquares(p)
  {
    hide Legal, Inv, Relocated, PieceAfter, Shape, Playable;
    LegalShape(p, m);
    forall x: Square
      ensures x in PawnSquares(Apply(p, m)) <==> x in PawnSquares(p)
    {
      SquareAfter(p, m, x);
      PawnSquareStays(p, m, x);
    }
  }

  lemma PawnSquareStays(p: Position, m: Move, x: Square)
    requires Shape(p, m) && Playable(p, m) && p.squares[m.from].kind != Pawn && p.squares[m.to] == Empty
    ensures PieceAfter(p, m, x).Man? && PieceAfter(p, m, x).kind == Pawn <==> p.squares[x].Man? && p.squares[x].kind == Pawn
  {
  }

  lemma CountAfter(p: Position, m: Move)
    requires Inv(p) && Legal(p, m)
    ensures p.squares[m.from].Man?
    ensures Apply(p, m).halfmove ==
      if p.squares[m.from].kind == Pawn || p.squares[m.to].Man? then 0 else p.halfmove + 1
    ensures m.flags.enPassant || m.flags.promotion ==> p.squares[m.from].kind == Pawn
  {
    hide InCheck;
    PseudoLegalShape(p, m);
    ShapeIsPlayable(p, m);
    FlagsExclude(p, m);
  }

  /** The count goes on exactly through the reversible moves; any other sets it to zero. */
  lemma CountFollowsReversible(p: Position, m: Move)
    requires Inv(p) && Legal(p, m)
    ensures var q := Apply(p, m); q.halfmove == if Reversible(p, q) then p.halfmove + 1 else 0
  {
    hide Inv, Legal, Apply, PawnSquares, Men;
    CountAfter(p, m);
    MenChangeIff(p, m);
    if p.squares[m.from].kind == Pawn {
      PawnLeaves(p, m);
    } else if p.squares[m.to] == Empty {
      PawnsStay(p, m);
    }
  }

  /** The number of moves at the end of the line since the last pawn move or capture. */
  ghost function QuietTail(ms: seq<Move>): nat {
    if ms == [] then 0 else
      var before := ms[..|ms| - 1];
      if Reversible(Replay(START, before), Replay(START, ms)) then QuietTail(before) + 1 else 0
  }

  /** Over every game the count is the number of moves since the last pawn move or capture. */
  lemma {:induction false} CountOverLine(ms: seq<Move>)
    requires LegalLine(START, ms)
    ensures Replay(START, ms).halfmove == QuietTail(ms)
  {
    hide Reversible, Legal, Apply;
    if ms != [] {
      var before := ms[..|ms| - 1];
      CountOverLine(before);
      ReachablePositionsSatisfyInvariant(before);
      CountFollowsReversible(Replay(START, before), ms[|ms| - 1]);
    }
  }

  // ---------------------------------------------------------------- the en-passant target

  /** There is a target exactly after a pawn's two-step: the square it passed over. */
  lemma TargetAfter(p: Position, m: Move)
    requires Inv(p) && Legal(p, m)
    ensures var pawn := p.squares[m.from].Man? && p.squares[m.from].kind == Pawn;
      Apply(p, m).ep ==
        if pawn && Abs(m.to - m.from) == 16 then Some((m.from + m.to) / 2) else None
  {
    hide InCheck;
    PseudoLegalShape(p, m);
    if p.squares[m.from].kind == Pawn {
      PawnSteps(p, m);
    }
  }

  lemma PawnSteps(p: Position, m: Move)
    requires Shape(p, m) && p.squares[m.from].kind == Pawn
    ensures m.flags.doublePush <==> Abs(m.to - m.from) == 16
    ensures m.flags.doublePush ==> Behind(m.to, p.side) == (m.from + m.to) / 2
  {
  }

  // ---------------------------------------------------------------- what a move does to the squares

  /** The square of a pawn taken in passing: beside the capturer, on the file it goes to. */
  predicate PassedBy(m: Move, x: Square) {
    m.flags.enPassant && Rank(x) == Rank(m.from) && File(x) == File(m.to)
  }

  predicate CastlingRank(m: Move, x: Square) {
    (m.flags.kingside || m.flags.queenside) && Rank(x) == Rank(m.from)
  }

  /** Two squares change, three when a pawn is taken in passing, four when castling; all others stay. */
  lemma SquaresAfter(p: Position, m: Move, x: Square)
    requires Inv(p) && Legal(p, m)
    ensures var b, q := p.squares, Apply(p, m).squares;
      && q[m.from] == Empty
      && q[m.to] == (if m.flags.promotion then PromotedMan(p, m) else b[m.from])
      && (x != m.from && x != m.to && !PassedBy(m, x) && !CastlingRank(m, x) ==> q[x] == b[x])
      && (PassedBy(m, x) ==> b[x] == Man(Opposite(p.side), Pawn) && q[x] == Empty)
  {
    hide InCheck, PromotedMan;
    PseudoLegalShape(p, m);
    ShapeIsPlayable(p, m);
    FlagsExclude(p, m);
    SquareAfter(p, m, m.from);
    SquareAfter(p, m, m.to);
    SquareAfter(p, m, x);
    ArrivingIs(p, m);
  }

  lemma ArrivingIs(p: Position, m: Move)
    requires Playable(p, m)
    ensures Arriving(p, m) == if m.flags.promotion then PromotedMan(p, m) else p.squares[m.from]
  {
  }

  /** Castling: the king goes two squares towards the rook, and the rook jumps to the square it crossed. */
  lemma CastlingAfter(p: Position, m: Move)
    requires Inv(p) && Legal(p, m) && (m.flags.kingside || m.flags.queenside)
    ensures var q, r := Apply(p, m).squares, if p.side == White then 0 else 7;
      var corner := At(r, if m.flags.kingside then 7 else 0);
      && p.squares[m.from] == q[m.to] == Man(p.side, King) && p.squares[corner] == Man(p.side, Rook)
      && Rank(m.from) == Rank(m.to) == r && File(m.from) == 4
      && File(m.to) == (if m.flags.kingside then 6 else 2)
      && q[(m.from + m.to) / 2] == Man(p.side, Rook) && q[corner] == Empty && q[m.from] == Empty
      && forall x: Square :: x != m.from && x != m.to && x != corner && x != (m.from + m.to) / 2 ==> q[x] == p.squares[x]
  {
    hide Legal, Inv, Relocated, Playable, Shape;
    LegalShape(p, m);
    CastlesAsShaped(p, m);
    forall x: Square
      ensures Relocated(p, m)[x] == PieceAfter(p, m, x)
    {
      SquareAfter(p, m, x);
    }
  }

  lemma CastlesAsShaped(p: Position, m: Move)
    requires Inv(p) && Shape(p, m) && (m.flags.kingside || m.flags.queenside)
    ensures CastleShape(p, m) && RightsBacked(p)
  {
    hide LineClear, AttackedBy, InCheck;
  }

  // ---------------------------------------------------------------- promotion

  lemma SameEnemyAttacks(b: Placement, x: Square, j: Kind, k: Kind, c: Color, y: Square)
    requires b[x] == Man(c, j)
    ensures AttackedBy(b, y, Opposite(c)) <==> AttackedBy(b[x := Man(c, k)], y, Opposite(c))
  {
    var d := b[x := Man(c, k)];
    forall z: Square
      ensures b[z].Man? && b[z].color == Opposite(c) <==> d[z].Man? && d[z].color == Opposite(c)
      ensures b[z].Man? && b[z].color == Opposite(c) ==> (Attacks(b, z, y) <==> Attacks(d, z, y))
    {
      SameLines(b, d, z, y);
    }
  }

  lemma SameLines(b: Placement, d: Placement, z: Square, y: Square)
    requires forall s: Square :: b[s] == Empty <==> d[s] == Empty
    ensures LineClear(b, z, y) <==> LineClear(d, z, y)
  {
    hide Rank, File, At, Dist, RankDir, FileDir;
    forall k
      ensures StepPiece(b, z, RankDir(z, y), FileDir(z, y), k) == Empty <==> StepPiece(d, z, RankDir(z, y), FileDir(z, y), k) == Empty
    {
    }
  }

  lemma SameCheck(b: Placement, x: Square, j: Kind, k: Kind, c: Color)
    requires b[x] == Man(c, j) && j != King && k != King
    ensures InCheck(b, c) <==> InCheck(b[x := Man(c, k)], c)
  {
    hide AttackedBy;
    var d := b[x := Man(c, k)];
    SameKing(b, d, c, 0);
    var y := FindKing(b, c);
    if y < 64 {
      SameEnemyAttacks(b, x, j, k, c, y);
    }
  }

  lemma {:induction false} SameKing(b: Placement, d: Placement, c: Color, i: nat)
    requires i <= 64 && forall s: Square :: b[s] == Man(c, King) <==> d[s] == Man(c, King)
    ensures FindKing(b, c, i) == FindKing(d, c, i)
    decreases 64 - i
  {
    if i < 64 {
      SameKing(b, d, c, i + 1);
    }
  }

  lemma PromotedBoard(p: Position, m: Move, k: Kind)
    requires Playable(p, m) && m.flags.promotion && !m.flags.kingside && !m.flags.queenside
    ensures Apply(p, m.(promo := Some(k))).squares == Apply(p, m).squares[m.to := Man(p.side, k)]
    ensures Apply(p, m).squares[m.to] == Man(p.side, m.promo.value)
  {
  }

  /** A pawn reaching the last rank always promotes, and may become any of the four pieces alike. */
  lemma FourPromotions(p: Position, m: Move, k: Kind)
    requires Inv(p) && Legal(p, m) && p.squares[m.from].Man? && p.squares[m.from].kind == Pawn
    ensures m.flags.promotion <==> Rank(m.to) == LastRank(p.side)
    ensures m.flags.promotion ==>
      (Legal(p, m.(promo := Some(k))) <==> k == Queen || k == Rook || k == Bishop || k == Knight)
  {
    hide InCheck, Apply;
    PseudoLegalShape(p, m);
    ShapeIsPlayable(p, m);
    FlagsExclude(p, m);
    PawnPromotes(p, m, k);
    if m.flags.promotion && PromotionKind(Some(k)) {
      PromotedBoard(p, m, k);
      SameCheck(Apply(p, m).squares, m.to, m.promo.value, k, p.side);
    }
  }

  lemma PawnPromotes(p: Position, m: Move, k: Kind)
    requires Inv(p) && PseudoLegal(p, m) && p.squares[m.from] == Man(p.side, Pawn) && Shape(p, m)
    ensures m.flags.promotion <==> Rank(m.to) == LastRank(p.side)
    ensures m.flags.promotion ==> (PseudoLegal(p, m.(promo := Some(k))) <==> PromotionKind(Some(k)))
  {
    hide InCheck, AttackedBy;
    var o := m.(promo := Some(k));
    assert PieceMove(p, m.from, p.side, m);
    PawnForms4(p, m, k);
    if m.flags.promotion && PromotionKind(Some(k)) {
      assert PieceMove(p, m.from, p.side, o);
    }
    if s: Square :| PieceMove(p, s, p.side, o) && m.flags.promotion {
      OnlyPawnsPromote(p, s, o);
    }
  }

  lemma OnlyPawnsPromote(p: Position, s: Square, m: Move)
    requires PieceMove(p, s, p.side, m) && m.flags.promotion
    ensures s == m.from && PawnMove(p, m, p.side)
  {
    hide AttackedBy, LineClear, PawnMove;
  }

  lemma PawnForms4(p: Position, m: Move, k: Kind)
    requires PawnMove(p, m, p.side) && NoEndPawns(p.squares) && p.squares[m.from] == Man(p.side, Pawn)
    ensures m.flags.promotion <==> Rank(m.to) == LastRank(p.side)
    ensures m.flags.promotion ==> (PawnMove(p, m.(promo := Some(k)), p.side) <==> PromotionKind(Some(k)))
  {
  }
}
