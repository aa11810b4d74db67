/** A position in which the root of a search is worth a mate and an ordinary node a draw. */
module RootScore {
  import opened Types
  import opened Rules
  import opened MoveSets
  import opened Minimax
  import opened TranspositionTable

  const LONE_SQUARES: Placement :=
    seq(64, i requires 0 <= i < 64 =>
      if i == 46 then Man(White, King) else if i == 48 then Man(White, Pawn) else if i == 62 then Man(Black, King) else Empty)

  /** White: king g6, pawn a7; Black: king g8; a hundred halfmoves have gone by. */
  const LATE: Position := Position(LONE_SQUARES, White, NO_RIGHTS, None, 100, 90)

  /** The pawn becomes a queen on a8, which is mate and starts the count anew. */
  const MATING: Move := Move(48, 56, PLAIN.(promotion := true), Some(Queen))

  /** The board with the black king on `k`. */
  predicate Mated(b: Placement, k: Square) {
    forall x: Square :: b[x] ==
      if x == 46 then Man(White, King) else if x == 56 then Man(White, Queen) else if x == k then Man(Black, King) else Empty
  }

  lemma KingFound(b: Placement, c: Color, k: Square)
    requires forall x: Square :: b[x] == Man(c, King) <==> x == k
    ensures FindKing(b, c) == k
  {
    var found := FindKing(b, c);
    assert b[k] == Man(c, King);
    if found < 64 {
      var x: Square := found;
      assert x == k;
    }
  }

  /** Wherever the black king is on its five squares, or where it stood, White attacks it. */
  lemma KingAttacked(b: Placement, k: Square)
    requires Mated(b, k) && k in {53, 54, 55, 61, 62, 63}
    ensures InCheck(b, Black)
  {
    hide FindKing;
    KingFound(b, Black, k);
    if k == 53 || k == 54 || k == 55 {
      assert Attacks(b, 46, k);
    } else {
      QueenSees(b, k);
      assert Attacks(b, 56, k);
    }
  }

  lemma QueenSees(b: Placement, k: Square)
    requires Mated(b, k) && k in {61, 62, 63}
    ensures LineClear(b, 56, k)
  {
    assert Rank(56) == 7 && File(56) == 0;
  }

  lemma AfterMating()
    ensures Mated(Apply(LATE, MATING).squares, 62)
    ensures Apply(LATE, MATING) == Position(Apply(LATE, MATING).squares, Black, NO_RIGHTS, None, 0, 90)
  {
  }

  lemma MatingIsLegal()
    ensures Legal(LATE, MATING)
  {
    hide FindKing, LineClear;
    AfterMating();
    var b := Apply(LATE, MATING).squares;
    assert PawnPush(LATE, MATING, White);
    assert PieceMove(LATE, 48, White, MATING);
    KingFound(b, White, 46);
    assert !InCheck(b, White);
  }

  lemma NoEscape(p: Position, m: Move)
    requires Mated(p.squares, 62) && p.side == Black && p.rights == NO_RIGHTS && PseudoLegal(p, m)
    ensures InCheck(Apply(p, m).squares, Black)
  {
    hide InCheck, AttackedBy, LineClear, KingStep;
    assert m.from == 62 && Plain(m) && KingStep(62, m.to);
    StepsFrom(m.to);
    KingAttacked(Apply(p, m).squares, m.to);
  }

  lemma StepsFrom(t: Square)
    requires KingStep(62, t)
    ensures t in {53, 54, 55, 61, 63}
  {
    assert Rank(62) == 7 && File(62) == 6;
    assert t == At(Rank(t), File(t));
  }

  /** The root is worth a mate, every other node with the same position a draw. */
  lemma RootIgnoresFiftyMoves(depth: nat)
    requires depth > 0
    ensures RootValue(LATE, depth) >= SCORE_MATE - 1 && Negamax(LATE, depth, 0) == SCORE_DRAW
  {
    hide Legal, Apply, InCheck;
    MatingIsLegal();
    AfterMating();
    var q := Apply(LATE, MATING);
    KingAttacked(q.squares, 62);
    assert Terminal(q) by {
      forall m: Move
        ensures !Legal(q, m)
      {
        Cornered(q, m);
      }
    }
    assert Negamax(q, depth - 1, 1) == TerminalScore(q, 1) by {
      QuietAtMate(q, depth - 1);
    }
    RootAtLeast(LATE, depth, MATING);
  }

  /** A pawn move or a capture: the fifty-move count starts anew. */
  predicate Resets(p: Position, m: Move) {
    (p.squares[m.from].Man? && p.squares[m.from].kind == Pawn) || Captured(p, m) != Empty
  }

  lemma QuietMoveDraws(p: Position, m: Move, depth: nat)
    requires p.halfmove >= 100 && !Resets(p, m)
    ensures Negamax(Apply(p, m), depth, 1) == SCORE_DRAW
  {
    hide Relocated, Captured;
  }

  /**
   Late in a game every move that is neither a pawn move nor a capture is worth a draw at the
   root.  So the root is worth at least a draw when there is one, and exactly a draw, as any
   other node, when there are no others.
   */
  lemma LateRootValue(p: Position, depth: nat)
    requires depth > 0 && p.halfmove >= 100 && !Terminal(p)
    ensures (exists m: Move :: Legal(p, m) && !Resets(p, m)) ==> RootValue(p, depth) >= SCORE_DRAW
    ensures (forall m: Move :: Legal(p, m) ==> !Resets(p, m)) ==> RootValue(p, depth) == SCORE_DRAW == Negamax(p, depth, 0)
  {
    hide *;
    LateNodeDraws(p, depth);
    if m: Move :| Legal(p, m) && !Resets(p, m) {
      QuietMoveDraws(p, m, depth - 1);
      RootAtLeast(p, depth, m);
    }
    var best := RootAttained(p, depth);
    if !Resets(p, best) {
      QuietMoveDraws(p, best, depth - 1);
    }
  }

  lemma LateNodeDraws(p: Position, depth: nat)
    requires p.halfmove >= 100
    ensures Negamax(p, depth, 0) == SCORE_DRAW == -SCORE_DRAW
  {
  }

  lemma RootAttained(p: Position, depth: nat) returns (m: Move)
    requires depth > 0 && !Terminal(p)
    ensures Legal(p, m) && RootValue(p, depth) == -Negamax(Apply(p, m), depth - 1, 1)
  {
    hide Legal, Apply, Negamax;
    SomeLegalMove(p);
    var f := m => -Negamax(Apply(p, m), depth - 1, 1);
    var v := MaxOver(LegalSet(p), f);
    m :| m in LegalSet(p) && f(m) == v;
  }

  lemma Cornered(q: Position, m: Move)
    requires Mated(q.squares, 62) && q.side == Black && q.rights == NO_RIGHTS
    ensures !Legal(q, m)
  {
    hide InCheck, Apply, PieceMove;
    if PseudoLegal(q, m) {
      NoEscape(q, m);
    }
  }

  lemma QuietAtMate(q: Position, depth: nat)
    requires Terminal(q) && q.halfmove < 100
    ensures Negamax(q, depth, 1) == TerminalScore(q, 1)
  {
    hide InCheck, Legal;
  }

  lemma RootAtLeast(p: Position, depth: nat, m: Move)
    requires depth > 0 && Legal(p, m)
    ensures RootValue(p, depth) >= -Negamax(Apply(p, m), depth - 1, 1)
  {
    hide Legal, Apply, Negamax;
    SomeLegalMove(p);
    var f := m => -Negamax(Apply(p, m), depth - 1, 1);
    var v := MaxOver(LegalSet(p), f);
  }
}
