/** Mate and stalemate told apart by what the opponent could do if it were his turn again. */
module StatusLaws {
  import opened Types
  import opened Rules
  import opened Agreement
  import opened Invariant
  import opened MoveGen
  import opened Uci
  import opened Room
  import opened RoomRuns
  import opened RootScore

  /** The same board with the turn passed to the opponent. */
  function Passed(p: Position): Position {
    p.(side := Opposite(p.side), ep := None)
  }

  /** Were the turn passed, some generated move would land on the king of the side that is to move now. */
  ghost predicate KingCouldBeTaken(p: Position) {
    exists r: Move :: PseudoLegal(Passed(p), r) && p.squares[r.to] == Man(p.side, King)
  }

  lemma CheckMeansTakeable(p: Position)
    requires Inv(p)
    ensures InCheck(p.squares, p.side) <==> KingCouldBeTaken(p)
  {
    hide PseudoLegal, AttackedBy;
    var k: Square :| SoleKing(p.squares, p.side, k);
    assert p.squares[k] == Man(p.side, King);
    SoleKingFound(p.squares, p.side, k);
    AttackScansAgree(Passed(p), k);
    if r: Move :| PseudoLegal(Passed(p), r) && p.squares[r.to] == Man(p.side, King) {
      assert r.to == k;
      assert MoveLandsOn(Passed(p), k);
    }
  }

  /**
   Below a hundred halfmoves a side without a legal move is mated exactly when its king could
   be taken, and stalemated exactly when it could not; a side with a legal move is neither.
   */
  lemma MateIff(p: Position)
    requires Inv(p) && p.halfmove < 100
    ensures var stuck := forall m: Move :: !Legal(p, m);
      && (StatusOf(p) == Checkmate <==> stuck && KingCouldBeTaken(p))
      && (StatusOf(p) == Stalemate <==> stuck && !KingCouldBeTaken(p))
      && (StatusOf(p) == Ongoing <==> !stuck)
  {
    hide Inv, Legal, InCheck, KingCouldBeTaken;
    CheckMeansTakeable(p);
  }

  /** King g6 and queen a8 against the king on g8, Black to move: mate. */
  lemma QueenMatesOnTheBackRank()
    ensures StatusOf(Apply(LATE, MATING)) == Checkmate
  {
    hide Legal, Apply, InCheck;
    AfterMating();
    var q := Apply(LATE, MATING);
    KingAttacked(q.squares, 62);
    forall m: Move
      ensures !Legal(q, m)
    {
      Cornered(q, m);
    }
  }

  /**
   A game that a move brings to an end is won for the side that moved exactly when the king of
   the other could be taken were the turn passed, and the fifty-move count has not run out;
   otherwise it is drawn.
   */
  lemma DecidedByMove(a: State, b: State, m: Move)
    requires Sound(a) && Plays(a, b, m) && b.game.phase == Finished
    ensures Inv(b.game.position)
    ensures b.game.result == WinFor(a.game.position.side) <==>
      b.game.position.halfmove < 100 && KingCouldBeTaken(b.game.position)
    ensures b.game.result == WinFor(a.game.position.side) || b.game.result == Drawn
  {
    hide Inv, Legal, InCheck, KingCouldBeTaken, Told, StatusOf, Apply;
    ReachedPosition(a);
    LegalMoveKeepsInvariant(a.game.position, m);
    OnlyBoardStatuses(b.game.position);
    MoverIsOther(a.game.position, m);
    if b.game.position.halfmove < 100 {
      MateIff(b.game.position);
    } else {
      LateStatus(b.game.position);
    }
  }

  /** The same of every run: a room whose status is one of the board's own has the result the board calls for. */
  lemma BoardDecidesRuns(r: State, es: seq<Event>)
    requires Fresh(r)
    ensures var b := Run(r, es);
      b.game.phase == Finished && b.game.status in {Checkmate, Stalemate, DrawFiftyMove} ==>
        && (b.game.result == WinFor(Opposite(b.game.position.side)) <==>
              b.game.position.halfmove < 100 && KingCouldBeTaken(b.game.position))
        && (b.game.result == WinFor(Opposite(b.game.position.side)) || b.game.result == Drawn)
        && (b.game.position.halfmove < 100 ==> forall m: Move :: !Legal(b.game.position, m))
  {
    hide Inv, Legal, InCheck, KingCouldBeTaken, Fresh, Run, StatusOf, FollowsHistory, SeatsSound, OffersSound;
    RunsAreSound(r, es);
    var b := Run(r, es);
    ReachedPosition(b);
    LateStatus(b.game.position);
    if b.game.position.halfmove < 100 {
      MateIff(b.game.position);
    }
  }

  lemma MoverIsOther(p: Position, m: Move)
    ensures Apply(p, m).side == Opposite(p.side) && Opposite(Opposite(p.side)) == p.side
  {
  }

  lemma LateStatus(p: Position)
    ensures p.halfmove >= 100 <==> StatusOf(p) == DrawFiftyMove
  {
  }
}
