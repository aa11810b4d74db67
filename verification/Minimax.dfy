/** What the engine should compute: unpruned negamax over an unpruned quiescence search. */
module Minimax {
  import opened Types
  import opened Rules
  import opened Invariant
  import opened MoveSets
  import opened Evaluator

  const SCORE_INFINITY := 1000000
  const SCORE_MATE := 900000
  const SCORE_DRAW := 0

  /** Quiescence follows checks and captures to this distance from the root. */
  const MAX_PLY := 64

  /** The greatest score of a set of moves. */
  ghost function MaxOver(ms: set<Move>, f: Move -> int): (r: int)
    requires ms != {}
    ensures forall m :: m in ms ==> f(m) <= r
    ensures exists m :: m in ms && f(m) == r
    decreases |ms|
  {
    var m :| m in ms;
    if ms == {m} then f(m) else
      var r := MaxOver(ms - {m}, f);
      if f(m) > r then f(m) else r
  }

  predicate Noisy(p: Position, m: Move) {
    p.squares[m.to].Man? || m.flags.enPassant || m.flags.promotion
  }

  ghost predicate Terminal(p: Position) {
    forall m: Move :: !Legal(p, m)
  }

  /** The score when the side to move has no legal move. */
  ghost function TerminalScore(p: Position, ply: int): int {
    if InCheck(p.squares, p.side) then -(SCORE_MATE - ply) else SCORE_DRAW
  }

  /** The moves quiescence looks at: all of them in check, otherwise the noisy ones. */
  ghost function QuietMoves(p: Position): (s: set<Move>)
    ensures forall m: Move :: m in s <==> Legal(p, m) && (InCheck(p.squares, p.side) || Noisy(p, m))
  {
    set m | m in LegalSet(p) && (InCheck(p.squares, p.side) || Noisy(p, m))
  }

  /** What following the noisy moves is worth; in check all moves are followed and standing pat is not allowed. */
  ghost function QuietValue(p: Position, ply: int): int
    decreases if ply < MAX_PLY then MAX_PLY - ply else 0
  {
    if Terminal(p) then TerminalScore(p, ply)
    else if p.halfmove >= 100 then SCORE_DRAW
    else if ply >= MAX_PLY then Evaluation(p)
    else
      var ms := QuietMoves(p);
      if InCheck(p.squares, p.side) then
        SomeLegalMove(p);
        MaxOver(ms, m => -QuietValue(Apply(p, m), ply + 1))
      else if ms == {} then Evaluation(p)
      else
        var best := MaxOver(ms, m => -QuietValue(Apply(p, m), ply + 1));
        if best > Evaluation(p) then best else Evaluation(p)
  }

  lemma SomeLegalMove(p: Position)
    requires !Terminal(p)
    ensures LegalSet(p) != {}
    ensures InCheck(p.squares, p.side) ==> QuietMoves(p) != {}
  {
    var m: Move :| Legal(p, m);
    assert m in LegalSet(p);
    if InCheck(p.squares, p.side) {
      assert m in QuietMoves(p);
    }
  }

  /** Unpruned negamax; the fifty-move count is tested before anything else. */
  ghost function Negamax(p: Position, depth: nat, ply: int): int
    decreases depth
  {
    if p.halfmove >= 100 then SCORE_DRAW
    else if depth == 0 then QuietValue(p, ply)
    else if Terminal(p) then TerminalScore(p, ply)
    else
      SomeLegalMove(p);
      MaxOver(LegalSet(p), m => -Negamax(Apply(p, m), depth - 1, ply + 1))
  }

  // ---------------------------------------------------------------- the recursions, unfolded

  /** A search node that is expanded: its value is the best of its moves. */
  lemma NegamaxUnfolds(p: Position, depth: nat, ply: int)
    requires p.halfmove < 100 && depth > 0 && !Terminal(p)
    ensures forall m: Move :: Legal(p, m) ==> -Negamax(Apply(p, m), depth - 1, ply + 1) <= Negamax(p, depth, ply)
    ensures exists m: Move :: Legal(p, m) && -Negamax(Apply(p, m), depth - 1, ply + 1) == Negamax(p, depth, ply)
  {
    hide Legal, Apply, InCheck, Evaluation, QuietValue;
    SomeLegalMove(p);
    var f := m => -Negamax(Apply(p, m), depth - 1, ply + 1);
    var v := MaxOver(LegalSet(p), f);
    assert Negamax(p, depth, ply) == v;
  }

  lemma QuietUnfolds(p: Position, ply: int)
    requires p.halfmove < 100 && ply < MAX_PLY && !Terminal(p)
    ensures forall m: Move :: m in QuietMoves(p) ==> -QuietValue(Apply(p, m), ply + 1) <= QuietValue(p, ply)
    ensures !InCheck(p.squares, p.side) ==> Evaluation(p) <= QuietValue(p, ply)
    ensures (!InCheck(p.squares, p.side) && QuietValue(p, ply) == Evaluation(p))
      || exists m: Move :: m in QuietMoves(p) && -QuietValue(Apply(p, m), ply + 1) == QuietValue(p, ply)
  {
    hide Legal, Apply, InCheck, Evaluation;
    SomeLegalMove(p);
    if QuietMoves(p) != {} {
      var f := m => -QuietValue(Apply(p, m), ply + 1);
      var v := MaxOver(QuietMoves(p), f);
    }
  }

  // ---------------------------------------------------------------- scores stay finite

  /** Beyond this distance from the root a mate score would leave the window. */
  const PLY_LIMIT := SCORE_MATE + SCORE_INFINITY

  predicate Finite(v: int) {
    -SCORE_INFINITY < v < SCORE_INFINITY
  }

  lemma {:induction false} QuietValueIsFinite(p: Position, ply: int)
    requires Inv(p) && 0 <= ply < PLY_LIMIT
    ensures Finite(QuietValue(p, ply))
    decreases if ply < MAX_PLY then MAX_PLY - ply else 0
  {
    hide *;
    KingsOf(p);
    EvaluationBound(p);
    if Terminal(p) || p.halfmove >= 100 || ply >= MAX_PLY {
      QuietLeafIsFinite(p, ply);
    } else {
      QuietUnfolds(p, ply);
      if m: Move :| m in QuietMoves(p) && -QuietValue(Apply(p, m), ply + 1) == QuietValue(p, ply) {
        LegalMoveKeepsInvariant(p, m);
        PlyRoom();
        QuietValueIsFinite(Apply(p, m), ply + 1);
        NegatedIsFinite(QuietValue(Apply(p, m), ply + 1));
      } else {
        EvaluationIsFinite(p);
      }
    }
  }

  lemma PlyRoom()
    ensures MAX_PLY < PLY_LIMIT
  {
  }

  lemma NegatedIsFinite(v: int)
    ensures Finite(-v) <==> Finite(v)
  {
  }

  lemma EvaluationIsFinite(p: Position)
    requires -EVAL_BOUND < Evaluation(p) < EVAL_BOUND
    ensures Finite(Evaluation(p))
  {
  }

  lemma QuietLeafIsFinite(p: Position, ply: int)
    requires Terminal(p) || p.halfmove >= 100 || ply >= MAX_PLY
    requires 0 <= ply < PLY_LIMIT && -EVAL_BOUND < Evaluation(p) < EVAL_BOUND
    ensures Finite(QuietValue(p, ply))
  {
    hide Evaluation, InCheck, Terminal;
    QuietLeaf(p, ply);
  }

  lemma QuietLeaf(p: Position, ply: int)
    requires Terminal(p) || p.halfmove >= 100 || ply >= MAX_PLY
    ensures QuietValue(p, ply) == if Terminal(p) then TerminalScore(p, ply) else if p.halfmove >= 100 then SCORE_DRAW else Evaluation(p)
  {
  }

  lemma KingsOf(p: Position)
    requires Inv(p)
    ensures OneKing(p.squares, White) && OneKing(p.squares, Black)
  {
  }

  lemma NegamaxLeafIsFinite(p: Position, depth: nat, ply: int)
    requires p.halfmove >= 100 || (depth > 0 && Terminal(p))
    requires 0 <= ply < PLY_LIMIT
    ensures Finite(Negamax(p, depth, ply))
  {
    hide Terminal, InCheck;
  }

  lemma NegamaxAtLeaf(p: Position, ply: int)
    requires p.halfmove < 100
    ensures Negamax(p, 0, ply) == QuietValue(p, ply)
  {
  }

  /** Every value of every reachable position lies inside the search window. */
  lemma {:induction false} NegamaxIsFinite(p: Position, depth: nat, ply: int)
    requires Inv(p) && 0 <= ply && ply + depth < PLY_LIMIT
    ensures Finite(Negamax(p, depth, ply))
    decreases depth
  {
    hide *;
    if p.halfmove >= 100 || (depth > 0 && Terminal(p)) {
      NegamaxLeafIsFinite(p, depth, ply);
    } else if depth == 0 {
      NegamaxAtLeaf(p, ply);
      QuietValueIsFinite(p, ply);
    } else {
      NegamaxUnfolds(p, depth, ply);
      var m: Move :| Legal(p, m) && -Negamax(Apply(p, m), depth - 1, ply + 1) == Negamax(p, depth, ply);
      LegalMoveKeepsInvariant(p, m);
      NegamaxIsFinite(Apply(p, m), depth - 1, ply + 1);
      NegatedIsFinite(Negamax(Apply(p, m), depth - 1, ply + 1));
    }
  }

  // ---------------------------------------------------------------- windows

  /** `r` is what a search with window (alpha, beta) may return for a node worth `v`. */
  predicate InWindow(r: int, v: int, alpha: int, beta: int) {
    && (r <= alpha ==> v <= r)
    && (r >= beta ==> v >= r)
    && (alpha < r < beta ==> r == v)
  }

  /** Searching a child with the negated window. */
  lemma NegatedWindow(r: int, v: int, alpha: int, beta: int)
    requires InWindow(r, v, -beta, -alpha)
    ensures InWindow(-r, -v, alpha, beta)
  {
  }
}
